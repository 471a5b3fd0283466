/** A worker's transaction in the code's own form (transaction.cpp): read and write sets that grow, tuple
    words that are locked, checked, stored. Each method runs without interference, up to the point where
    the code would spin, and is shown to take the worker's own steps of the commit protocol. */
module TxExecutors {
  import opened TidWords
  import C = CommitModel
  import CI = CommitInv
  import CS = CommitSteps

  // ---- Runs of one worker -------------------------------------------------------------------

  ghost predicate Closed(states: iset<C.State>, w: nat) {
    forall s, a :: s in states && C.Enabled(s, w, a) ==> C.Apply(s, w, a) in states
  }

  /** Worker w alone takes the protocol from s to t: t is in every set of states that has s and is closed
      under the steps of w. RanIsRun says the same with traces. */
  ghost predicate Ran(s: C.State, w: nat, t: C.State) {
    forall states: iset<C.State> :: s in states && Closed(states, w) ==> t in states
  }

  ghost predicate Own(w: nat, trace: seq<C.Label>) {
    forall i :: 0 <= i < |trace| ==> trace[i].worker == w
  }

  lemma RanNone(s: C.State, w: nat)
    ensures Ran(s, w, s)
  {
  }

  lemma RanStep(s: C.State, w: nat, t: C.State, a: C.Action, u: C.State)
    requires Ran(s, w, t) && C.Enabled(t, w, a) && C.Apply(t, w, a) == u
    ensures Ran(s, w, u)
  {
  }

  lemma {:induction false} ReachesOneMore(s: C.State, trace: seq<C.Label>, t: C.State, l: C.Label)
    requires C.Reaches(s, trace, t) && C.Enabled(t, l.worker, l.action)
    ensures C.Reaches(s, trace + [l], C.Apply(t, l.worker, l.action))
    decreases |trace|
  {
    if trace == [] {
      assert C.Reaches(C.Apply(t, l.worker, l.action), [], C.Apply(t, l.worker, l.action));
    } else {
      ReachesOneMore(C.Apply(s, trace[0].worker, trace[0].action), trace[1..], t, l);
      assert (trace + [l])[1..] == trace[1..] + [l];
    }
  }

  lemma {:induction false} RunStays(states: iset<C.State>, w: nat, s: C.State, trace: seq<C.Label>, t: C.State)
    requires Closed(states, w) && s in states && C.Reaches(s, trace, t) && Own(w, trace)
    ensures t in states
    decreases |trace|
  {
    if trace != [] { RunStays(states, w, C.Apply(s, w, trace[0].action), trace[1..], t); }
  }

  ghost predicate Runs(s: C.State, w: nat, t: C.State) {
    exists trace :: C.Reaches(s, trace, t) && Own(w, trace)
  }

  lemma RunsClosed(s: C.State, w: nat)
    ensures Closed((iset t | Runs(s, w, t)), w)
  {
    var states := iset t | Runs(s, w, t);
    forall t, a | t in states && C.Enabled(t, w, a) ensures C.Apply(t, w, a) in states {
      var trace :| C.Reaches(s, trace, t) && Own(w, trace);
      ReachesOneMore(s, trace, t, C.Label(w, a));
      assert Own(w, trace + [C.Label(w, a)]);
    }
  }

  lemma RanIsRun(s: C.State, w: nat, t: C.State)
    ensures Ran(s, w, t) <==> exists trace :: C.Reaches(s, trace, t) && Own(w, trace)
  {
    RunsClosed(s, w);
    assert C.Reaches(s, [], s) && Own(w, []);
    assert s in (iset u | Runs(s, w, u));
    if Runs(s, w, t) {
      var trace :| C.Reaches(s, trace, t) && Own(w, trace);
      forall states: iset<C.State> | s in states && Closed(states, w) ensures t in states {
        RunStays(states, w, s, trace, t);
      }
    }
  }

  // ---- The steps of each phase --------------------------------------------------------------

  /** Everything a worker refers to exists and has the right size. */
  ghost predicate Fit(s: C.State, w: nat) {
    && w < |s.ws| == |s.wvals| && |s.wvals[w]| == C.VAL_SIZE
    && (forall x :: 0 <= x < |s.table| ==> |s.table[x].val| == C.VAL_SIZE)
    && (forall i :: 0 <= i < |s.ws[w].writeSet| ==> s.ws[w].writeSet[i] < |s.table|)
    && (forall i :: 0 <= i < |s.ws[w].readSet| ==> s.ws[w].readSet[i].key < |s.table|)
  }

  /** The state with the tuple's word replaced, and what history records about it. */
  function SetWord(s: C.State, x: nat, word: TidWord, owner: int, ver: int): C.State
    requires x < |s.table|
  {
    C.SetTuple(s, x, s.table[x].(word := word, owner := owner, ver := ver))
  }

  lemma {:induction false} Copies(s0: C.State, s: C.State, w: nat, key: nat, n: nat)
    requires Fit(s, w) && key < |s.table| && n <= C.VAL_SIZE
    requires var t := s.table[key]; Ran(s0, w, C.At(s, w, C.ReadCopy(key, t.word, [], t.ver)))
    ensures var t := s.table[key]; Ran(s0, w, C.At(s, w, C.ReadCopy(key, t.word, t.val[..n], t.ver)))
  {
    var t := s.table[key];
    if n == 0 {
      assert t.val[..0] == [];
    } else {
      Copies(s0, s, w, key, n - 1);
      assert t.val[..n - 1] + [t.val[n - 1]] == t.val[..n];
      RanStep(s0, w, C.At(s, w, C.ReadCopy(key, t.word, t.val[..n - 1], t.ver)), C.Next,
              C.At(s, w, C.ReadCopy(key, t.word, t.val[..n], t.ver)));
    }
  }

  /** A read of an unlocked tuple. */
  lemma Reads(s: C.State, w: nat, key: nat)
    requires Fit(s, w) && s.ws[w].pc.Running? && key < |s.table| && !s.table[key].word.lock
    requires !C.InReadSet(s.ws[w].readSet, key) && key !in s.ws[w].writeSet
    ensures Ran(s, w, HasRead(s, w, key))
  {
    var t := s.table[key];
    RanNone(s, w);
    RanStep(s, w, s, C.Read(key), C.At(s, w, C.ReadLoad(key)));
    RanStep(s, w, C.At(s, w, C.ReadLoad(key)), C.Next, C.At(s, w, C.ReadCopy(key, t.word, [], t.ver)));
    Copies(s, s, w, key, C.VAL_SIZE);
    assert t.val[..C.VAL_SIZE] == t.val;
    RanStep(s, w, C.At(s, w, C.ReadCopy(key, t.word, t.val, t.ver)), C.Next, HasRead(s, w, key));
  }

  function HasRead(s: C.State, w: nat, key: nat): C.State
    requires w < |s.ws| && key < |s.table|
  {
    var wk := s.ws[w];
    var t := s.table[key];
    C.Put(s, w, wk.(readSet := wk.readSet + [C.ReadElement(key, t.val, t.word, t.ver)]))
  }

  /** Locking an unlocked tuple: load, compare and swap. */
  lemma Locks(s0: C.State, s: C.State, w: nat, k: nat)
    requires Fit(s, w) && k < |s.ws[w].writeSet| && s.ws[w].pc == C.LockLoad(k) && Ran(s0, w, s)
    requires !s.table[s.ws[w].writeSet[k]].word.lock
    ensures Ran(s0, w, Locked(s, w, k))
  {
    var t := s.table[s.ws[w].writeSet[k]];
    RanStep(s0, w, s, C.Next, C.At(s, w, C.LockTry(k, t.word)));
    RanStep(s0, w, C.At(s, w, C.LockTry(k, t.word)), C.Next, Locked(s, w, k));
  }

  function Locked(s: C.State, w: nat, k: nat): C.State
    requires w < |s.ws| && k < |s.ws[w].writeSet| && s.ws[w].writeSet[k] < |s.table|
  {
    var wk := s.ws[w];
    var x := wk.writeSet[k];
    var word := s.table[x].word;
    SetWord(C.Put(s, w, wk.(pc := C.LockLoad(k + 1), maxW := Max(wk.maxW, word))), x, word.(lock := true), w,
        s.table[x].ver)
  }

  /** A tuple found locked ends the attempt. */
  lemma GivesUp(s0: C.State, s: C.State, w: nat, k: nat)
    requires Fit(s, w) && k < |s.ws[w].writeSet| && s.ws[w].pc == C.LockLoad(k) && Ran(s0, w, s)
    requires s.table[s.ws[w].writeSet[k]].word.lock
    ensures Ran(s0, w, C.At(s, w, C.UnlockLoad(0, k)))
  {
    var t := s.table[s.ws[w].writeSet[k]];
    RanStep(s0, w, s, C.Next, C.At(s, w, C.LockTry(k, t.word)));
    RanStep(s0, w, C.At(s, w, C.LockTry(k, t.word)), C.Next, C.At(s, w, C.UnlockLoad(0, k)));
  }

  lemma Unlocks(s0: C.State, s: C.State, w: nat, k: nat, end: nat)
    requires Fit(s, w) && k < end <= |s.ws[w].writeSet| && s.ws[w].pc == C.UnlockLoad(k, end) && Ran(s0, w, s)
    ensures Ran(s0, w, Unlocked(s, w, k, end))
  {
    var word := s.table[s.ws[w].writeSet[k]].word;
    RanStep(s0, w, s, C.Next, C.At(s, w, C.UnlockStore(k, end, word)));
    RanStep(s0, w, C.At(s, w, C.UnlockStore(k, end, word)), C.Next, Unlocked(s, w, k, end));
  }

  function Unlocked(s: C.State, w: nat, k: nat, end: nat): C.State
    requires w < |s.ws| && k < |s.ws[w].writeSet| && s.ws[w].writeSet[k] < |s.table|
  {
    var x := s.ws[w].writeSet[k];
    SetWord(C.At(s, w, C.UnlockLoad(k + 1, end)), x, s.table[x].word.(lock := false), -1, s.table[x].ver)
  }

  /** The serial point: GlobalEpoch is loaded and stored in ThLocalEpoch. */
  lemma LoadsEpoch(s0: C.State, s: C.State, w: nat)
    requires Fit(s, w) && s.ws[w].pc == C.LockLoad(|s.ws[w].writeSet|) && Ran(s0, w, s)
    ensures Ran(s0, w, EpochStored(s, w))
  {
    var t := C.At(s, w, C.EpochLoad);
    RanStep(s0, w, s, C.Next, t);
    var u := C.EpochLoadStep(t, w);
    RanStep(s0, w, t, C.Next, u);
    RanStep(s0, w, u, C.Next, EpochStored(s, w));
  }

  function EpochStored(s: C.State, w: nat): C.State
    requires w < |s.ws| == |s.wvals|
  {
    var wk := s.ws[w];
    C.Put(s, w, wk.(pc := C.Validate(0), localEpoch := s.ge, slot := |s.log|))
    .(log := s.log + [C.Entry(w, s.ge, wk.readSet, wk.writeSet, s.wvals[w], C.Pending)])
  }

  lemma Validates(s0: C.State, s: C.State, w: nat, k: nat)
    requires Fit(s, w) && s.ws[w].slot < |s.log| && s.ws[w].pc == C.Validate(k)
    requires k < |s.ws[w].readSet| && Ran(s0, w, s)
    ensures Ran(s0, w, C.ValidateStep(s, w))
  {
    RanStep(s0, w, s, C.Next, C.ValidateStep(s, w));
  }

  lemma Validated(s0: C.State, s: C.State, w: nat)
    requires Fit(s, w) && s.ws[w].slot < |s.log| && s.ws[w].pc == C.Validate(|s.ws[w].readSet|) && Ran(s0, w, s)
    ensures Ran(s0, w, C.At(s, w, C.WriteTid))
  {
    RanStep(s0, w, s, C.Next, C.At(s, w, C.WriteTid));
  }

  /** The commit TID is fixed, and wal takes the log. */
  lemma Logged(s0: C.State, s: C.State, w: nat, ctid: TidWord) returns (s': C.State)
    requires Fit(s, w) && s.ws[w].slot < |s.log| && s.ws[w].pc == C.WriteTid && Ran(s0, w, s)
    requires ctid == CommitTid(s.ws[w].maxW, s.ws[w].maxR, s.ws[w].last, s.ws[w].localEpoch)
    ensures Ran(s0, w, s') && s'.table == s.table && s'.wvals == s.wvals && s'.ge == s.ge
    ensures s'.ws == s.ws[w := s.ws[w].(pc := C.Install(0, 0), last := ctid)]
  {
    var t := C.WriteTidStep(s, w);
    RanStep(s0, w, s, C.Next, t);
    s' := C.At(t, w, C.Install(0, 0));
    RanStep(s0, w, t, C.LogDone, s');
  }

  /** The state in which b bytes of element k have been copied. */
  function Copied(s: C.State, w: nat, k: nat, b: nat): C.State
    requires Fit(s, w) && k < |s.ws[w].writeSet| && b <= C.VAL_SIZE
  {
    var x := s.ws[w].writeSet[k];
    C.SetTuple(C.At(s, w, C.Install(k, b)), x, s.table[x].(val := s.wvals[w][..b] + s.table[x].val[b..]))
  }

  lemma {:induction false} CopiesIn(s0: C.State, s: C.State, w: nat, k: nat, b: nat)
    requires Fit(s, w) && k < |s.ws[w].writeSet| && b <= C.VAL_SIZE && s.ws[w].pc == C.Install(k, 0) && Ran(s0, w, s)
    ensures Ran(s0, w, Copied(s, w, k, b))
  {
    var x := s.ws[w].writeSet[k];
    var before, after := s.table[x].val, s.wvals[w];
    if b == 0 {
      assert after[..0] + before[0..] == before;
      assert Copied(s, w, k, 0) == s;
    } else {
      CopiesIn(s0, s, w, k, b - 1);
      OneByte(before, after, b - 1);
      RanStep(s0, w, Copied(s, w, k, b - 1), C.Next, Copied(s, w, k, b));
    }
  }

  lemma OneByte(v: C.Value, u: C.Value, b: nat)
    requires |u| == |v| && b < |v|
    ensures (u[..b] + v[b..])[b := u[b]] == u[..b + 1] + v[b + 1..]
  {
  }

  lemma Installs(s0: C.State, s: C.State, w: nat, k: nat)
    requires Fit(s, w) && k < |s.ws[w].writeSet| && s.ws[w].pc == C.Install(k, 0) && Ran(s0, w, s)
    ensures Ran(s0, w, Installed(s, w, k))
  {
    CopiesIn(s0, s, w, k, C.VAL_SIZE);
    var x := s.ws[w].writeSet[k];
    assert s.wvals[w][..C.VAL_SIZE] + s.table[x].val[C.VAL_SIZE..] == s.wvals[w];
    RanStep(s0, w, Copied(s, w, k, C.VAL_SIZE), C.Next, Installed(s, w, k));
  }

  function Installed(s: C.State, w: nat, k: nat): C.State
    requires w < |s.ws| == |s.wvals| && k < |s.ws[w].writeSet| && s.ws[w].writeSet[k] < |s.table|
  {
    var wk := s.ws[w];
    C.SetTuple(C.At(s, w, C.Install(k + 1, 0)), wk.writeSet[k], C.Tuple(wk.last, s.wvals[w], -1, wk.slot))
  }

  lemma Ends(s0: C.State, s: C.State, w: nat) returns (s': C.State)
    requires Fit(s, w) && s.ws[w].pc == C.Install(|s.ws[w].writeSet|, 0) && Ran(s0, w, s)
    ensures s' == C.Put(s, w, s.ws[w].(pc := C.Idle, readSet := [], writeSet := [])) && Ran(s0, w, s')
  {
    s' := C.Put(s, w, s.ws[w].(pc := C.Idle, readSet := [], writeSet := []));
    RanStep(s0, w, s, C.Next, s');
  }

  // ---- The class ----------------------------------------------------------------------------

  /** class Tuple */
  datatype Cell = Cell(word: TidWord, val: C.Value)

  datatype ReadElement = ReadElement(key: nat, val: C.Value, word: TidWord)

  /** The read set without what history records about it. */
  function Plain(rs: seq<C.ReadElement>): (ps: seq<ReadElement>)
    ensures |ps| == |rs|
  {
    seq(|rs|, i requires 0 <= i < |rs| => ReadElement(rs[i].key, rs[i].val, rs[i].word))
  }

  lemma PlainKeys(rs: seq<C.ReadElement>, key: nat)
    ensures C.InReadSet(rs, key) <==> exists i :: 0 <= i < |rs| && Plain(rs)[i].key == key
  {
    forall i | 0 <= i < |rs| ensures Plain(rs)[i].key == rs[i].key {}
    if C.InReadSet(rs, key) {
      var i :| 0 <= i < |rs| && rs[i].key == key;
      assert Plain(rs)[i].key == key;
    }
  }

  datatype TransactionStatus = InFlight | Committed | Aborted

  class TxExecutor {
    const thid: nat
    const table: array<Cell>               // Table
    const thLocalEpoch: array<nat>         // ThLocalEpoch
    const writeVal: C.Value
    var readSet: seq<ReadElement>
    var writeSet: seq<nat>
    var status: TransactionStatus
    var maxRset: TidWord
    var maxWset: TidWord
    var mrctid: TidWord

    ghost predicate ShowsTable(s: C.State)
      reads table
    {
      table.Length == |s.table| && forall x :: 0 <= x < |s.table| ==> table[x] == Cell(s.table[x].word, s.table[x].val)
    }

    ghost predicate ShowsWorker(s: C.State)
      reads this, thLocalEpoch
    {
      && thid < |s.ws| == |s.wvals| == thLocalEpoch.Length
      && writeVal == s.wvals[thid]
      && (forall w :: 0 <= w < |s.ws| ==> thLocalEpoch[w] == s.ws[w].localEpoch)
      && var wk := s.ws[thid];
      && writeSet == wk.writeSet && maxRset == wk.maxR && maxWset == wk.maxW && mrctid == wk.last
      && readSet == Plain(wk.readSet)
    }

    /** Executor, table and epoch registers are those of state s. */
    ghost predicate Shows(s: C.State)
      reads this, table, thLocalEpoch
    {
      Fit(s, thid) && ShowsTable(s) && ShowsWorker(s)
    }

    constructor (thid: nat, table: array<Cell>, thLocalEpoch: array<nat>, writeVal: C.Value)
      ensures this.thid == thid && this.table == table && this.thLocalEpoch == thLocalEpoch && this.writeVal == writeVal
      ensures readSet == [] && writeSet == [] && status == InFlight
      ensures maxRset == C.ZERO_WORD && maxWset == C.ZERO_WORD && mrctid == C.InitWorker().last
    {
      this.thid, this.table, this.thLocalEpoch, this.writeVal := thid, table, thLocalEpoch, writeVal;
      readSet, writeSet, status := [], [], InFlight;
      maxRset, maxWset, mrctid := C.ZERO_WORD, C.ZERO_WORD, TidWord(0, 0, false, true, false);
    }

    method Begin(ghost s: C.State)
      requires Shows(s) && s.ws[thid].pc.Idle?
      modifies this`status, this`maxRset, this`maxWset
      ensures status == InFlight && C.Enabled(s, thid, C.Begin) && Shows(C.Apply(s, thid, C.Begin))
    {
      status := InFlight;
      maxWset, maxRset := C.ZERO_WORD, C.ZERO_WORD;
    }

    method SearchReadSet(key: nat) returns (found: bool)
      ensures found == exists i :: 0 <= i < |readSet| && readSet[i].key == key
    {
      var itr := 0;
      while itr < |readSet|
        invariant 0 <= itr <= |readSet| && forall i :: 0 <= i < itr ==> readSet[i].key != key
      {
        if readSet[itr].key == key { return true; }
        itr := itr + 1;
      }
      return false;
    }

    method SearchWriteSet(key: nat) returns (found: bool)
      ensures found == (key in writeSet)
    {
      var itr := 0;
      while itr < |writeSet|
        invariant 0 <= itr <= |writeSet| && key !in writeSet[..itr]
      {
        if writeSet[itr] == key { return true; }
        itr := itr + 1;
      }
      return false;
    }

    /** False where the code spins on a locked word. */
    method Read(ghost s: C.State, key: nat) returns (done: bool, ghost s': C.State)
      requires Shows(s) && s.ws[thid].pc.Running? && key < table.Length
      modifies this`readSet
      ensures Ran(s, thid, s') && Shows(s') && s'.table == s.table
      ensures !done ==> table[key].word.lock && readSet == old(readSet)
      ensures done ==> s'.ws[thid].pc.Running? && (C.InReadSet(s'.ws[thid].readSet, key) || key in writeSet)
      ensures readSet == old(readSet) || readSet == old(readSet) + [ReadElement(key, table[key].val, table[key].word)]
    {
      s' := s;
      RanNone(s, thid);
      var inReadSet := SearchReadSet(key);
      var inWriteSet := SearchWriteSet(key);
      PlainKeys(s.ws[thid].readSet, key);
      if inReadSet || inWriteSet { return true, s'; }
      var expected := table[key].word;
      if expected.lock { return false, s'; }
      var returnVal := table[key].val;
      var check := table[key].word;
      assert expected == check;
      Reads(s, thid, key);
      s' := HasRead(s, thid, key);
      readSet := readSet + [ReadElement(key, returnVal, expected)];
      assert s'.ws[thid].readSet[|s.ws[thid].readSet|].key == key;
      return true, s';
    }

    method Write(ghost s: C.State, key: nat) returns (ghost s': C.State)
      requires Shows(s) && s.ws[thid].pc.Running? && key < table.Length && |writeSet| < C.MAX_OPE
      modifies this`writeSet
      ensures Ran(s, thid, s') && Shows(s') && s'.ws[thid].pc.Running?
      ensures writeSet == if key in old(writeSet) then old(writeSet) else old(writeSet) + [key]
    {
      s' := s;
      RanNone(s, thid);
      var inWriteSet := SearchWriteSet(key);
      if inWriteSet { return; }
      writeSet := writeSet + [key];
      s' := C.Apply(s, thid, C.Write(key));
      RanStep(s, thid, s, C.Write(key), s');
    }

    method UnlockOne(ghost s0: C.State, ghost s: C.State, itr: nat, end: nat) returns (ghost s': C.State)
      requires Shows(s) && itr < end <= |writeSet| && s.ws[thid].pc == C.UnlockLoad(itr, end) && Ran(s0, thid, s)
      modifies table
      ensures Ran(s0, thid, s') && Shows(s') && s'.ge == s.ge
      ensures s'.ws == s.ws[thid := s.ws[thid].(pc := C.UnlockLoad(itr + 1, end))]
      ensures forall x :: 0 <= x < table.Length ==> table[x] == Cleared(old(table[x]), x == writeSet[itr])
    {
      Unlocks(s0, s, thid, itr, end);
      s' := Unlocked(s, thid, itr, end);
      var expected := table[writeSet[itr]].word;
      table[writeSet[itr]] := table[writeSet[itr]].(word := expected.(lock := false));
    }

    /** unlockWriteSet(end): clears the lock bit of the first `end` elements. */
    method UnlockWriteSet(ghost s0: C.State, ghost s: C.State, end: nat) returns (ghost s': C.State)
      requires Shows(s) && end <= |writeSet| && s.ws[thid].pc == C.UnlockLoad(0, end) && Ran(s0, thid, s)
      modifies table
      ensures Ran(s0, thid, s') && Shows(s') && s'.ge == s.ge
      ensures s'.ws == s.ws[thid := s.ws[thid].(pc := C.UnlockLoad(end, end))]
      ensures forall x :: 0 <= x < table.Length ==> table[x] == Cleared(old(table[x]), x in writeSet[..end])
    {
      s' := s;
      var itr := 0;
      while itr < end
        invariant 0 <= itr <= end && Ran(s0, thid, s') && Shows(s') && s'.ge == s.ge
        invariant s'.ws == s.ws[thid := s.ws[thid].(pc := C.UnlockLoad(itr, end))]
        invariant forall x :: 0 <= x < table.Length ==> table[x] == Cleared(old(table[x]), x in writeSet[..itr])
      {
        s' := UnlockOne(s0, s', itr, end);
        InPrefixNext(writeSet, itr);
        itr := itr + 1;
      }
    }

    /** lockWriteSet, lines 53-58: compare and swap, which nothing disturbs here. */
    method LockOne(ghost s0: C.State, ghost s: C.State, itr: nat) returns (ghost s': C.State)
      requires Shows(s) && itr < |writeSet| && s.ws[thid].pc == C.LockLoad(itr) && Ran(s0, thid, s)
      requires !table[writeSet[itr]].word.lock
      modifies table, this`maxWset
      ensures Ran(s0, thid, s') && Shows(s') && s'.ge == s.ge && s'.ws[thid].pc == C.LockLoad(itr + 1)
      ensures forall x :: 0 <= x < table.Length ==> table[x] == Marked(old(table[x]), x == writeSet[itr])
    {
      Locks(s0, s, thid, itr);
      s' := Locked(s, thid, itr);
      var x := writeSet[itr];
      var expected := table[x].word;
      table[x] := table[x].(word := expected.(lock := true));
      maxWset := Max(maxWset, expected);
    }

    /** lockWriteSet, lines 48-51. */
    method Conflicts(ghost s0: C.State, ghost s: C.State, itr: nat) returns (ghost s': C.State)
      requires Shows(s) && itr < |writeSet| && s.ws[thid].pc == C.LockLoad(itr) && Ran(s0, thid, s)
      requires table[writeSet[itr]].word.lock
      modifies table, this`status
      ensures Ran(s0, thid, s') && Shows(s') && s'.ge == s.ge && s'.ws[thid].pc == C.UnlockLoad(itr, itr)
      ensures status == Aborted
      ensures forall x :: 0 <= x < table.Length ==> table[x] == Cleared(old(table[x]), x in writeSet[..itr])
    {
      status := Aborted;
      GivesUp(s0, s, thid, itr);
      s' := C.At(s, thid, C.UnlockLoad(0, itr));
      if itr != 0 { s' := UnlockWriteSet(s0, s', itr); }
    }

    /** Locks the whole write set, or, when a tuple is found locked, releases what it locked. */
    method LockWriteSet(ghost s0: C.State, ghost s: C.State) returns (ghost s': C.State)
      requires Shows(s) && s.ws[thid].pc == C.LockLoad(0)
      requires CI.Distinct(writeSet) && status.InFlight? && Ran(s0, thid, s)
      modifies table, this`status, this`maxWset
      ensures Ran(s0, thid, s') && Shows(s') && s'.ge == s.ge
      ensures status == if Conflict(old(table[..]), writeSet) then Aborted else InFlight
      ensures status.Aborted? ==> table[..] == old(table[..])
      ensures if status.Aborted? then Released(s'.ws[thid].pc) else s'.ws[thid].pc == C.LockLoad(|writeSet|)
      ensures status.InFlight? ==> AllMarked(old(table[..]), table[..], writeSet)
    {
      s' := s;
      ghost var before := table[..];
      var itr := 0;
      while itr < |writeSet|
        invariant 0 <= itr <= |writeSet| && Ran(s0, thid, s') && Shows(s') && s'.ge == s.ge
        invariant status.InFlight? && s'.ws[thid].pc == C.LockLoad(itr)
        invariant PartLocked(before, table[..], writeSet, itr)
      {
        ghost var now := table[..];
        PartLockedNow(before, now, writeSet, itr);
        if table[writeSet[itr]].word.lock {
          s' := Conflicts(s0, s', itr);
          GivenUp(before, now, table[..], writeSet, itr);
          return;
        }
        s' := LockOne(s0, s', itr);
        PartLockedMore(before, now, table[..], writeSet, itr);
        itr := itr + 1;
      }
      AllLocked(before, table[..], writeSet);
    }

    /** One element of the read set: its word is still of the version read, and not locked by another. */
    method CheckRead(itr: nat) returns (ok: bool, check: TidWord)
      requires itr < |readSet| && readSet[itr].key < table.Length
      ensures check == table[readSet[itr].key].word
      ensures ok == (SameVersion(readSet[itr].word, check) && !(check.lock && readSet[itr].key !in writeSet))
    {
      check := table[readSet[itr].key].word;
      if readSet[itr].word.epoch != check.epoch || readSet[itr].word.tid != check.tid { return false, check; }
      var own := SearchWriteSet(readSet[itr].key);
      if check.lock && !own { return false, check; }
      ok := true;
    }

    /** validationPhase, lines 169-183; on a failure the locks are released. */
    method ValidateOne(ghost s0: C.State, ghost s: C.State, itr: nat) returns (ok: bool, ghost s': C.State)
      requires Shows(s) && itr < |readSet| && s.ws[thid].pc == C.Validate(itr)
      requires s.ws[thid].slot < |s.log| && Ran(s0, thid, s)
      modifies table, this`status, this`maxRset
      ensures Ran(s0, thid, s') && Shows(s')
      ensures ok == ReadHolds(old(table[..]), readSet[itr], writeSet)
      ensures ok ==> s'.ws[thid].pc == C.Validate(itr + 1) && s'.ws[thid].slot < |s'.log| && table[..] == old(table[..])
      ensures !ok ==> status.Aborted? && Released(s'.ws[thid].pc) && AllCleared(old(table[..]), table[..], writeSet)
    {
      var check;
      ok, check := CheckRead(itr);
      Validates(s0, s, thid, itr);
      s' := C.ValidateStep(s, thid);
      if ok { maxRset := Max(maxRset, check); } else { s' := Rejects(s0, s'); }
    }

    /** validationPhase, lines 171-173 and 179-181. */
    method Rejects(ghost s0: C.State, ghost s: C.State) returns (ghost s': C.State)
      requires Shows(s) && s.ws[thid].pc == C.UnlockLoad(0, |writeSet|) && Ran(s0, thid, s)
      modifies table, this`status
      ensures Ran(s0, thid, s') && Shows(s')
      ensures status.Aborted? && Released(s'.ws[thid].pc) && AllCleared(old(table[..]), table[..], writeSet)
    {
      status := Aborted;
      assert writeSet[..|writeSet|] == writeSet;
      s' := UnlockWriteSet(s0, s, |writeSet|);
    }

    /** validationPhase, lines 164-188, with the write set locked. */
    method ValidateReads(ghost s0: C.State, ghost s: C.State) returns (ok: bool, ghost s': C.State)
      requires Shows(s) && s.ws[thid].pc == C.Validate(0) && s.ws[thid].slot < |s.log| && Ran(s0, thid, s)
      modifies table, this`status, this`maxRset
      ensures Ran(s0, thid, s') && Shows(s')
      ensures ok == ReadsHold(old(table[..]), readSet, writeSet)
      ensures ok ==> status.Committed? && s'.ws[thid].pc.WriteTid? && s'.ws[thid].slot < |s'.log|
      ensures ok ==> table[..] == old(table[..])
      ensures !ok ==> status.Aborted? && Released(s'.ws[thid].pc) && AllCleared(old(table[..]), table[..], writeSet)
    {
      s' := s;
      ghost var before := table[..];
      var itr := 0;
      while itr < |readSet|
        invariant 0 <= itr <= |readSet| && Ran(s0, thid, s') && Shows(s') && s'.ws[thid].slot < |s'.log|
        invariant s'.ws[thid].pc == C.Validate(itr) && table[..] == before
        invariant forall i :: 0 <= i < itr ==> ReadHolds(before, readSet[i], writeSet)
      {
        ok, s' := ValidateOne(s0, s', itr);
        if !ok {
          assert !ReadHolds(before, readSet[itr], writeSet);
          return;
        }
        itr := itr + 1;
      }
      s' := Passes(s0, s');
      return true, s';
    }

    method Passes(ghost s0: C.State, ghost s: C.State) returns (ghost s': C.State)
      requires Shows(s) && s.ws[thid].pc == C.Validate(|readSet|) && s.ws[thid].slot < |s.log| && Ran(s0, thid, s)
      modifies this`status
      ensures Ran(s0, thid, s') && Shows(s') && status.Committed?
      ensures s'.ws[thid].slot < |s'.log| && s'.ws[thid].pc.WriteTid?
    {
      status := Committed;
      Validated(s0, s, thid);
      s' := C.At(s, thid, C.WriteTid);
    }

    /** sort(write_set_) */
    method SortWriteSet(ghost s: C.State) returns (ghost s': C.State)
      requires Shows(s) && s.ws[thid].pc.Running? && CI.Distinct(writeSet)
      modifies this`writeSet
      ensures Ran(s, thid, s') && Shows(s') && s'.ws[thid].pc == C.LockLoad(0) && s'.ge == s.ge
      ensures CI.Ascending(writeSet) && forall x :: x in writeSet <==> x in old(writeSet)
    {
      CS.SortAscending(writeSet);
      ghost var sorted := C.Sort(writeSet);
      assert forall i :: 0 <= i < |sorted| ==> sorted[i] in sorted;
      writeSet := C.Sort(writeSet);
      RanNone(s, thid);
      s' := C.Apply(s, thid, C.Commit);
      RanStep(s, thid, s, C.Commit, s');
    }

    /** validationPhase, line 150. */
    method StoreEpoch(ghost s0: C.State, ghost s: C.State, globalEpoch: nat) returns (ghost s': C.State)
      requires Shows(s) && s.ws[thid].pc == C.LockLoad(|writeSet|) && globalEpoch == s.ge && Ran(s0, thid, s)
      modifies thLocalEpoch
      ensures Ran(s0, thid, s') && Shows(s') && s'.ws[thid].pc == C.Validate(0) && s'.ws[thid].slot < |s'.log|
      ensures thLocalEpoch[thid] == globalEpoch
    {
      LoadsEpoch(s0, s, thid);
      s' := EpochStored(s, thid);
      thLocalEpoch[thid] := globalEpoch;
    }

    /** A transaction that runs alone passes exactly if no tuple of its write set is locked and every
        tuple it read is unlocked and of the version it read. It then holds its write set locked; if it
        does not pass, the table is as it was. */
    method ValidationPhase(ghost s: C.State, globalEpoch: nat) returns (ok: bool, ghost s': C.State)
      requires Shows(s) && s.ws[thid].pc.Running? && CI.Distinct(writeSet) && status.InFlight? && globalEpoch == s.ge
      modifies table, thLocalEpoch, this`writeSet, this`status, this`maxWset, this`maxRset
      ensures Ran(s, thid, s') && Shows(s')
      ensures ok == (Free(old(table[..]), writeSet) && forall i :: 0 <= i < |readSet| ==>
                ReadHolds(old(table[..]), readSet[i], []))
      ensures ok ==> status.Committed? && s'.ws[thid].pc.WriteTid? && s'.ws[thid].slot < |s'.log| &&
                     AllMarked(old(table[..]), table[..], writeSet)
      ensures !ok ==> status.Aborted? && Released(s'.ws[thid].pc) && table[..] == old(table[..])
      ensures forall x :: x in writeSet <==> x in old(writeSet)
    {
      ghost var before := table[..];
      s' := SortWriteSet(s);
      s' := LockWriteSet(s, s');
      FreeOrConflict(before, writeSet);
      if status.Aborted? { return false, s'; }
      ghost var locked := table[..];
      s' := StoreEpoch(s, s', globalEpoch);
      ok, s' := ValidateReads(s, s');
      Validation(before, locked, table[..], readSet, writeSet, ok);
    }

    /** writePhase, lines 233-246. */
    method MaxTid() returns (maxtid: TidWord)
      requires thid < thLocalEpoch.Length
      ensures maxtid == CommitTid(maxWset, maxRset, mrctid, thLocalEpoch[thid])
    {
      var tidA := Max(maxWset, maxRset);
      tidA := tidA.(tid := (tidA.tid + 1) % TID_LIMIT);
      var tidB := mrctid;
      tidB := tidB.(tid := (tidB.tid + 1) % TID_LIMIT);
      var tidC := TidWord(thLocalEpoch[thid] % EPOCH_LIMIT, 0, false, true, false);
      assert tidA == Bump(Max(maxWset, maxRset)) && tidB == Bump(mrctid);
      maxtid := Max(Max(tidA, tidB), tidC);
      maxtid := maxtid.(lock := false);
      maxtid := maxtid.(latest := true);
    }

    method ComputeTid(ghost s0: C.State, ghost s: C.State) returns (maxtid: TidWord, ghost s': C.State)
      requires Shows(s) && s.ws[thid].pc == C.WriteTid && s.ws[thid].slot < |s.log| && Ran(s0, thid, s)
      modifies this`mrctid
      ensures maxtid == mrctid == CommitTid(maxWset, maxRset, old(mrctid), thLocalEpoch[thid])
      ensures Ran(s0, thid, s') && Shows(s') && s'.ws[thid].pc == C.Install(0, 0)
    {
      maxtid := MaxTid();
      s' := Logged(s0, s, thid, maxtid);       // wal: see LogWorkers
      mrctid := maxtid;
    }

    /** writePhase, lines 254-259: the value, then the word, which also unlocks. */
    method InstallOne(ghost s0: C.State, ghost s: C.State, itr: nat, maxtid: TidWord) returns (ghost s': C.State)
      requires Shows(s) && itr < |writeSet| && s.ws[thid].pc == C.Install(itr, 0)
      requires maxtid == mrctid && Ran(s0, thid, s)
      modifies table
      ensures Ran(s0, thid, s') && Shows(s') && s'.ws[thid].pc == C.Install(itr + 1, 0)
      ensures forall x :: 0 <= x < table.Length ==>
                table[x] == if x == writeSet[itr] then Cell(maxtid, writeVal) else old(table[x])
    {
      Installs(s0, s, thid, itr);
      s' := Installed(s, thid, itr);
      table[writeSet[itr]] := table[writeSet[itr]].(val := writeVal);
      table[writeSet[itr]] := table[writeSet[itr]].(word := maxtid);
    }

    /** Every tuple of the write set gets the value and the commit TID, unlocked; nothing else changes. */
    method WritePhase(ghost s: C.State) returns (ghost s': C.State)
      requires Shows(s) && s.ws[thid].pc == C.WriteTid && s.ws[thid].slot < |s.log|
      modifies table, this`mrctid, this`readSet, this`writeSet
      ensures Ran(s, thid, s') && Shows(s') && s'.ws[thid].pc.Idle? && readSet == [] && writeSet == []
      ensures mrctid == CommitTid(maxWset, maxRset, old(mrctid), thLocalEpoch[thid])
      ensures forall x :: 0 <= x < table.Length ==>
                table[x] == if x in old(writeSet) then Cell(mrctid, writeVal) else old(table[x])
    {
      RanNone(s, thid);
      var maxtid;
      maxtid, s' := ComputeTid(s, s);
      var itr := 0;
      while itr < |writeSet|
        modifies table
        invariant 0 <= itr <= |writeSet| && Ran(s, thid, s') && Shows(s') && s'.ws[thid].pc == C.Install(itr, 0)
        invariant forall x :: 0 <= x < table.Length ==>
                    table[x] == if x in writeSet[..itr] then Cell(maxtid, writeVal) else old(table[x])
      {
        s' := InstallOne(s, s', itr, maxtid);
        InPrefixNext(writeSet, itr);
        itr := itr + 1;
      }
      assert writeSet[..itr] == writeSet;
      s' := Ends(s, s', thid);
      readSet, writeSet := [], [];
    }

    method Abort(ghost s: C.State)
      requires Shows(s) && Released(s.ws[thid].pc) && s.ws[thid].pc.end <= |writeSet|
      modifies this`readSet, this`writeSet
      ensures readSet == [] && writeSet == [] && C.Enabled(s, thid, C.Next) && Shows(C.Apply(s, thid, C.Next))
      ensures C.Apply(s, thid, C.Next).ws[thid].pc.Idle?
    {
      readSet, writeSet := [], [];
    }
  }

  /** No tuple to be written is locked. */
  ghost predicate Free(table: seq<Cell>, keys: seq<nat>) {
    forall i :: 0 <= i < |keys| ==> keys[i] < |table| && !table[keys[i]].word.lock
  }

  ghost predicate AllMarked(before: seq<Cell>, now: seq<Cell>, keys: seq<nat>) {
    |now| == |before| && forall x :: 0 <= x < |now| ==> now[x] == Marked(before[x], x in keys)
  }

  lemma FreeOrConflict(table: seq<Cell>, keys: seq<nat>)
    requires forall i :: 0 <= i < |keys| ==> keys[i] < |table|
    ensures Free(table, keys) <==> !Conflict(table, keys)
  {
  }

  lemma Validation(before: seq<Cell>, locked: seq<Cell>, now: seq<Cell>, rs: seq<ReadElement>, keys: seq<nat>, ok: bool)
    requires AllMarked(before, locked, keys) && Free(before, keys) && ok == ReadsHold(locked, rs, keys)
    requires if ok then now == locked else AllCleared(locked, now, keys)
    ensures ok == forall i :: 0 <= i < |rs| ==> ReadHolds(before, rs[i], [])
    ensures !ok ==> now == before
  {
    MarkedReads(before, locked, rs, keys);
    if !ok { MarkedCleared(before, locked, now, keys); }
  }

  /** With the write set locked from a free state, a read holds just if it held before and was unlocked. */
  lemma MarkedReads(before: seq<Cell>, now: seq<Cell>, rs: seq<ReadElement>, keys: seq<nat>)
    requires AllMarked(before, now, keys) && Free(before, keys)
    ensures ReadsHold(now, rs, keys) <==> forall i :: 0 <= i < |rs| ==> ReadHolds(before, rs[i], [])
  {
    forall i | 0 <= i < |rs| ensures ReadHolds(now, rs[i], keys) <==> ReadHolds(before, rs[i], []) {
      if rs[i].key in keys {
        var k :| 0 <= k < |keys| && keys[k] == rs[i].key;
        assert !before[keys[k]].word.lock;
      }
    }
  }

  /** Clearing the locks that were taken on a free write set gives the table back. */
  lemma MarkedCleared(before: seq<Cell>, locked: seq<Cell>, now: seq<Cell>, keys: seq<nat>)
    requires AllMarked(before, locked, keys) && AllCleared(locked, now, keys) && Free(before, keys)
    ensures now == before
  {
    forall x | 0 <= x < |now| ensures now[x] == before[x] {
      if x in keys {
        var k :| 0 <= k < |keys| && keys[k] == x;
        assert !before[keys[k]].word.lock;
      }
    }
  }

  /** unlockWriteSet has reached its end. */
  ghost predicate Released(pc: C.Pc) {
    pc.UnlockLoad? && pc.k == pc.end
  }

  /** What read validation asks of the table. */
  ghost predicate ReadHolds(table: seq<Cell>, r: ReadElement, keys: seq<nat>) {
    r.key < |table| && SameVersion(r.word, table[r.key].word) && !(table[r.key].word.lock && r.key !in keys)
  }

  ghost predicate ReadsHold(table: seq<Cell>, rs: seq<ReadElement>, keys: seq<nat>) {
    forall i :: 0 <= i < |rs| ==> ReadHolds(table, rs[i], keys)
  }

  ghost predicate AllCleared(before: seq<Cell>, now: seq<Cell>, keys: seq<nat>) {
    |now| == |before| && forall x :: 0 <= x < |now| ==> now[x] == Cleared(before[x], x in keys)
  }

  /** The first n keys were unlocked before and are locked now; nothing else has changed. */
  ghost predicate PartLocked(before: seq<Cell>, now: seq<Cell>, keys: seq<nat>, n: nat)
    requires n <= |keys|
  {
    && |now| == |before|
    && (forall i :: 0 <= i < n && keys[i] < |before| ==> !before[keys[i]].word.lock)
    && (forall x :: 0 <= x < |now| ==> now[x] == Marked(before[x], x in keys[..n]))
  }

  /** The next key is as it was before, and clearing what was locked restores the table. */
  lemma PartLockedNow(before: seq<Cell>, now: seq<Cell>, keys: seq<nat>, n: nat)
    requires n < |keys| && PartLocked(before, now, keys, n) && keys[n] < |now| && CI.Distinct(keys)
    ensures now[keys[n]] == before[keys[n]]
    ensures forall x :: 0 <= x < |now| ==> Cleared(now[x], x in keys[..n]) == before[x]
  {
    assert keys[n] !in keys[..n];
    forall x | 0 <= x < |now| ensures Cleared(now[x], x in keys[..n]) == before[x] {
      if x in keys[..n] {
        var i :| 0 <= i < n && keys[i] == x;
      }
    }
  }

  lemma PartLockedMore(before: seq<Cell>, now: seq<Cell>, next: seq<Cell>, keys: seq<nat>, n: nat)
    requires n < |keys| && PartLocked(before, now, keys, n) && keys[n] < |now| == |next|
    requires now[keys[n]] == before[keys[n]] && !now[keys[n]].word.lock
    requires forall x :: 0 <= x < |now| ==> next[x] == Marked(now[x], x == keys[n])
    ensures PartLocked(before, next, keys, n + 1)
  {
    InPrefixNext(keys, n);
  }

  lemma GivenUp(before: seq<Cell>, now: seq<Cell>, after: seq<Cell>, keys: seq<nat>, n: nat)
    requires n < |keys| && keys[n] < |now| == |before| && now[keys[n]] == before[keys[n]] && now[keys[n]].word.lock
    requires forall x :: 0 <= x < |now| ==> Cleared(now[x], x in keys[..n]) == before[x]
    requires |after| == |now| && forall x :: 0 <= x < |now| ==> after[x] == Cleared(now[x], x in keys[..n])
    ensures after == before && Conflict(before, keys)
  {
  }

  lemma AllLocked(before: seq<Cell>, now: seq<Cell>, keys: seq<nat>)
    requires PartLocked(before, now, keys, |keys|)
    ensures AllMarked(before, now, keys) && !Conflict(before, keys)
  {
    assert keys[..|keys|] == keys;
  }

  function Cleared(c: Cell, yes: bool): Cell {
    if yes then c.(word := c.word.(lock := false)) else c
  }

  function Marked(c: Cell, yes: bool): Cell {
    if yes then c.(word := c.word.(lock := true)) else c
  }

  /** A tuple to be written is locked already. */
  ghost predicate Conflict(table: seq<Cell>, keys: seq<nat>) {
    exists i :: 0 <= i < |keys| && keys[i] < |table| && table[keys[i]].word.lock
  }

  lemma InPrefixNext(keys: seq<nat>, i: nat)
    requires i < |keys|
    ensures forall x :: x in keys[..i + 1] <==> x in keys[..i] || x == keys[i]
  {
    assert keys[..i + 1] == keys[..i] + [keys[i]];
  }
}
