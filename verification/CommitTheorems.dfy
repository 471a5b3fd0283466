/** What the commit protocol guarantees in every run. */
module CommitTheorems {
  import opened TidWords
  import opened CommitModel
  import opened CommitLog
  import opened CommitInv
  import opened CommitSteps

  // ---- From steps to runs -------------------------------------------------------------------

  /** A worker that is validating points at its own pending entry. */
  ghost predicate SlotsPending(s: State) {
    forall w :: 0 <= w < |s.ws| && PendingPc(s.ws[w].pc) ==>
      s.ws[w].slot < |s.log| && s.log[s.ws[w].slot].st.Pending? && s.log[s.ws[w].slot].worker == w
  }

  ghost predicate Grows(s: State, s': State) {
    s.ge <= s'.ge && forall e: nat :: Commits(s.log, e) <= Commits(s'.log, e)
  }

  /** A step leaves the log alone, appends one pending entry, or settles the worker's own. */
  ghost predicate LogMoves(s: State, s': State, w: nat)
    requires w < |s.ws| == |s'.ws|
  {
    var wk, wk' := s.ws[w], s'.ws[w];
    || (s'.log == s.log && (PendingPc(wk'.pc) ==> PendingPc(wk.pc) && wk'.slot == wk.slot))
    || (|s'.log| == |s.log| + 1 && s'.log[..|s.log|] == s.log && s'.log[|s.log|].st.Pending? &&
        s'.log[|s.log|].worker == w && wk'.slot == |s.log|)
    || (PendingPc(wk.pc) && wk.slot < |s.log| == |s'.log| && !PendingPc(wk'.pc) &&
        s'.log == s.log[wk.slot := s.log[wk.slot].(st := s'.log[wk.slot].st)])
  }

  lemma StepMovesLog(s: State, w: nat, a: Action)
    requires Enabled(s, w, a)
    ensures var s' := Apply(s, w, a);
            |s'.ws| == |s.ws| && s'.ws == s.ws[w := s'.ws[w]] && s.ge <= s'.ge && LogMoves(s, s', w)
  {
    if a.Next? {
      if s.ws[w].pc.EpochLoad? {
        assert EpochLoadStep(s, w).log[..|s.log|] == s.log;
      } else if s.ws[w].pc.Validate? || s.ws[w].pc.WriteTid? {
        SettlesLog(s, w);
      } else {
        NextKeepsLog(s, w);
      }
    }
  }

  lemma SettlesLog(s: State, w: nat)
    requires Enabled(s, w, Next) && (s.ws[w].pc.Validate? || s.ws[w].pc.WriteTid?)
    ensures var s' := NextStep(s, w);
            |s'.ws| == |s.ws| && s'.ws == s.ws[w := s'.ws[w]] && s.ge <= s'.ge && LogMoves(s, s', w)
  {
  }

  lemma NextKeepsLog(s: State, w: nat)
    requires Enabled(s, w, Next)
    requires !s.ws[w].pc.EpochLoad? && !s.ws[w].pc.Validate? && !s.ws[w].pc.WriteTid?
    ensures var s' := NextStep(s, w);
            && |s'.ws| == |s.ws| && s'.ws == s.ws[w := s'.ws[w]] && s.ge <= s'.ge && s'.log == s.log
            && (PendingPc(s'.ws[w].pc) ==> PendingPc(s.ws[w].pc) && s'.ws[w].slot == s.ws[w].slot)
  {
  }

  /** Limits reached once stay reached, whether or not anything else still holds. */
  lemma StepGrows(s: State, w: nat, a: Action)
    requires SlotsPending(s) && Enabled(s, w, a)
    ensures SlotsPending(Apply(s, w, a)) && Grows(s, Apply(s, w, a))
  {
    StepMovesLog(s, w, a);
    MovesGrow(s, Apply(s, w, a), w);
  }

  lemma MovesGrow(s: State, s': State, w: nat)
    requires SlotsPending(s) && w < |s.ws| == |s'.ws|
    requires s'.ws == s.ws[w := s'.ws[w]] && s.ge <= s'.ge && LogMoves(s, s', w)
    ensures SlotsPending(s') && Grows(s, s')
  {
    var p := s.ws[w].slot;
    if |s'.log| == |s.log| + 1 {
      assert s'.log == s.log + [s'.log[|s.log|]];
      forall e: nat ensures Commits(s.log, e) <= Commits(s'.log, e) {
        CommitsAppend(s.log, s'.log[|s.log|], e);
      }
    } else if s'.log != s.log {
      forall e: nat ensures Commits(s.log, e) <= Commits(s'.log, e) {
        CommitsSettle(s.log, p, s'.log[p].st, e);
      }
    }
  }

  lemma {:induction false} RunGrows(s: State, trace: seq<Label>, s': State)
    requires SlotsPending(s) && Reaches(s, trace, s')
    ensures Grows(s, s')
    decreases |trace|
  {
    if trace != [] {
      var l := trace[0];
      StepGrows(s, l.worker, l.action);
      RunGrows(Apply(s, l.worker, l.action), trace[1..], s');
    }
  }

  lemma {:induction false} RunKeepsInv(s: State, trace: seq<Label>, s': State)
    requires Inv(s) && SlotsPending(s) && Reaches(s, trace, s') && Bounded(s')
    ensures Inv(s')
    decreases |trace|
  {
    if trace != [] {
      var l := trace[0];
      var t := Apply(s, l.worker, l.action);
      StepGrows(s, l.worker, l.action);
      RunGrows(s, trace, s');
      RunGrows(t, trace[1..], s');
      StepKeepsInv(s, l.worker, l.action);
      RunKeepsInv(t, trace[1..], s');
    }
  }

  /** The states of runs that have not exhausted the epoch or a TID field. */
  ghost predicate Reachable(init: seq<Value>, wvals: seq<Value>, s: State) {
    ValidConfig(init, wvals) && Bounded(s) && exists trace :: Reaches(InitState(init, wvals), trace, s)
  }

  lemma ReachableInv(init: seq<Value>, wvals: seq<Value>, s: State)
    requires Reachable(init, wvals, s)
    ensures Inv(s) && s.init == init && s.wvals == wvals
  {
    var trace :| Reaches(InitState(init, wvals), trace, s);
    InitInv(init, wvals);
    RunKeepsInv(InitState(init, wvals), trace, s);
    RunKeepsConfig(InitState(init, wvals), trace, s);
  }

  lemma {:induction false} RunKeepsConfig(s: State, trace: seq<Label>, s': State)
    requires Reaches(s, trace, s')
    ensures s'.init == s.init && s'.wvals == s.wvals
    decreases |trace|
  {
    if trace != [] {
      RunKeepsConfig(Apply(s, trace[0].worker, trace[0].action), trace[1..], s');
    }
  }

  /** The value of an entry is its worker's. */
  ghost predicate ValuesOk(s: State) {
    forall j :: 0 <= j < |s.log| ==> s.log[j].worker < |s.wvals| && s.log[j].val == s.wvals[s.log[j].worker]
  }

  lemma StepKeepsValues(s: State, w: nat, a: Action)
    requires ValuesOk(s) && Enabled(s, w, a)
    ensures ValuesOk(Apply(s, w, a)) && Apply(s, w, a).wvals == s.wvals
  {
    if !(a.Next? && s.ws[w].pc.EpochLoad?) { StepMovesLog(s, w, a); }
  }

  lemma {:induction false} RunKeepsValues(s: State, trace: seq<Label>, s': State)
    requires ValuesOk(s) && Reaches(s, trace, s')
    ensures ValuesOk(s')
    decreases |trace|
  {
    if trace != [] {
      StepKeepsValues(s, trace[0].worker, trace[0].action);
      RunKeepsValues(Apply(s, trace[0].worker, trace[0].action), trace[1..], s');
    }
  }

  // ---- Serializability ----------------------------------------------------------------------

  /** The table after one transaction that ran alone. */
  function WriteAll(table: seq<Value>, keys: seq<nat>, val: Value): (r: seq<Value>)
    ensures |r| == |table|
  {
    seq(|table|, i requires 0 <= i < |table| => if i in keys then val else table[i])
  }

  /** The table after running the committed transactions among the first n, one after the other. */
  function Serial(init: seq<Value>, log: seq<Entry>, n: nat): (r: seq<Value>)
    requires n <= |log|
    ensures |r| == |init|
  {
    if n == 0 then init
    else
      var before := Serial(init, log, n - 1);
      if log[n - 1].st.Committed? then WriteAll(before, log[n - 1].wset, log[n - 1].val) else before
  }

  lemma {:induction false} SerialValue(init: seq<Value>, log: seq<Entry>, n: nat, x: nat)
    requires n <= |log| && x < |init| && IsVersion(log, x, LastWriter(log, n, x))
    ensures Serial(init, log, n)[x] == VersionVal(init, log, x, LastWriter(log, n, x))
  {
    if n > 0 && LastWriter(log, n, x) != n - 1 {
      SerialValue(init, log, n - 1, x);
    }
  }

  /** Each committed transaction read what a serial execution, in the order of the loads of GlobalEpoch,
      would have given it: every value it read is the value in the serial state just before it. */
  lemma Serializable(init: seq<Value>, wvals: seq<Value>, s: State, j: nat, i: nat)
    requires Reachable(init, wvals, s)
    requires j < |s.log| && s.log[j].st.Committed? && i < |s.log[j].rset|
    ensures var r := s.log[j].rset[i];
            r.key < |init| && r.val == Serial(init, s.log, j)[r.key]
  {
    ReachableInv(init, wvals, s);
    assert EntryOk(init, s.log, j);
    SerialValue(init, s.log, j, s.log[j].rset[i].key);
  }

  /** Any tuple found unlocked holds the value of the serial execution of everything committed so far;
      when nothing is locked the table is that execution's result. */
  lemma UnlockedIsSerial(init: seq<Value>, wvals: seq<Value>, s: State, x: nat)
    requires Reachable(init, wvals, s) && x < |s.table| && !s.table[x].word.lock
    ensures x < |init| && s.table[x].val == Serial(init, s.log, |s.log|)[x]
  {
    ReachableInv(init, wvals, s);
    assert KeyOk(s, x);
    SerialValue(init, s.log, |s.log|, x);
  }

  /** When every worker is between transactions the table is the result of the serial execution. */
  lemma QuiescentIsSerial(init: seq<Value>, wvals: seq<Value>, s: State)
    requires Reachable(init, wvals, s)
    requires forall w :: 0 <= w < |s.ws| ==> Outside(s.ws[w].pc)
    ensures |s.table| == |init|
    ensures forall x :: 0 <= x < |init| ==> s.table[x].val == Serial(init, s.log, |s.log|)[x]
    ensures forall j :: 0 <= j < |s.log| ==> !s.log[j].st.Pending?
  {
    ReachableInv(init, wvals, s);
    forall x | 0 <= x < |init| ensures s.table[x].val == Serial(init, s.log, |s.log|)[x] {
      assert KeyOk(s, x);
      UnlockedIsSerial(init, wvals, s, x);
    }
    forall j | 0 <= j < |s.log| ensures !s.log[j].st.Pending? { assert PendingOk(s, j); }
  }

  // ---- Torn reads ---------------------------------------------------------------------------

  /** Any pair in a read set was installed together: the value is the whole value of the transaction
      whose commit TID the word carries, or the initial value with the initial word. */
  lemma ReadsAreWhole(init: seq<Value>, wvals: seq<Value>, s: State, w: nat, i: nat)
    requires Reachable(init, wvals, s) && w < |s.ws| && i < |s.ws[w].readSet|
    ensures var r := s.ws[w].readSet[i];
            || (r.key < |init| && r.val == init[r.key] && SameVersion(r.word, INIT_WORD))
            || exists j :: 0 <= j < |s.log| && s.log[j].st.Committed? && r.key in s.log[j].wset &&
                           r.val == s.log[j].val && SameVersion(r.word, s.log[j].st.ctid)
  {
    ReachableInv(init, wvals, s);
    var r := s.ws[w].readSet[i];
    assert WorkerOk(s, w) && ReadOk(s, r);
    if r.ver >= 0 { assert s.log[r.ver].st.Committed?; }
  }

  // ---- Epochs and TIDs ----------------------------------------------------------------------

  /** How many transactions of the serial order lie in epochs up to e. */
  function PrefixLength(log: seq<Entry>, e: nat): (n: nat)
    ensures n <= |log|
  {
    if log == [] then 0
    else if log[|log| - 1].epoch <= e then |log|
    else PrefixLength(log[..|log| - 1], e)
  }

  lemma {:induction false} PrefixOf(log: seq<Entry>, e: nat)
    requires forall i, j :: 0 <= i <= j < |log| ==> log[i].epoch <= log[j].epoch
    ensures forall j :: 0 <= j < |log| ==> (log[j].epoch <= e <==> j < PrefixLength(log, e))
  {
    if log != [] && log[|log| - 1].epoch > e {
      PrefixOf(log[..|log| - 1], e);
      assert forall j :: 0 <= j < |log| - 1 ==> log[..|log| - 1][j] == log[j];
    }
  }

  /** Epochs never decrease along the serial order, the commit TID carries the epoch loaded at the
      serial point, and so the transactions of epochs up to e are a prefix of the serial order. */
  lemma EpochPrefix(init: seq<Value>, wvals: seq<Value>, s: State, e: nat)
    requires Reachable(init, wvals, s)
    ensures forall i, j :: 0 <= i <= j < |s.log| ==> s.log[i].epoch <= s.log[j].epoch
    ensures forall j :: 0 <= j < |s.log| && s.log[j].st.Committed? ==>
              (s.log[j].st.ctid.epoch <= e <==> j < PrefixLength(s.log, e))
    ensures forall j :: 0 <= j < |s.log| && s.log[j].st.Committed? ==> s.log[j].st.ctid.epoch == s.log[j].epoch
  {
    ReachableInv(init, wvals, s);
    forall i, j | 0 <= i <= j < |s.log| ensures s.log[i].epoch <= s.log[j].epoch {
      assert EntryOk(init, s.log, j);
    }
    PrefixOf(s.log, e);
    forall j | 0 <= j < |s.log| && s.log[j].st.Committed? ensures s.log[j].st.ctid.epoch == s.log[j].epoch {
      assert EntryOk(init, s.log, j);
    }
  }

  /** A commit TID exceeds every word its transaction read, the word of every version it overwrote, and
      every commit TID its worker issued before. */
  lemma CommitTidsIncrease(init: seq<Value>, wvals: seq<Value>, s: State, j: nat)
    requires Reachable(init, wvals, s) && j < |s.log| && s.log[j].st.Committed?
    ensures forall i :: 0 <= i < |s.log[j].rset| ==> Before(s.log[j].rset[i].word, s.log[j].st.ctid)
    ensures forall x :: x in s.log[j].wset ==> Before(VersionWord(s.log, LastWriter(s.log, j, x)), s.log[j].st.ctid)
    ensures forall i :: 0 <= i < j && s.log[i].worker == s.log[j].worker && s.log[i].st.Committed? ==>
              Before(s.log[i].st.ctid, s.log[j].st.ctid)
  {
    ReachableInv(init, wvals, s);
    assert EntryOk(init, s.log, j) && PendingOk(s, j) && TidsOk(s, j);
    forall x | x in s.log[j].wset ensures Before(VersionWord(s.log, LastWriter(s.log, j, x)), s.log[j].st.ctid) {
      assert WriteSerial(s.log, j, x);
    }
  }

  /** The (epoch, TID) of a tuple never decreases, and increases whenever a version is installed. */
  lemma InstallsIncrease(s: State, w: nat, a: Action, x: nat)
    requires Inv(s) && Enabled(s, w, a) && Inv(Apply(s, w, a)) && x < |s.table|
    ensures s.table[x].ver <= Apply(s, w, a).table[x].ver
    ensures var t, t' := s.table[x], Apply(s, w, a).table[x];
            if t'.ver == t.ver then SameVersion(t.word, t'.word) else Before(t.word, t'.word)
  {
    var t, t' := s.table[x], Apply(s, w, a).table[x];
    if a.Next? && s.ws[w].pc.Install? {
      InstallIncreases(s, w, x);
    } else if a.Next? && (s.ws[w].pc.UnlockStore? || s.ws[w].pc.LockTry?) {
      LockingKeepsVersion(s, w, x);
    } else if a.Next? {
      assert NextStep(s, w).table == s.table;
    }
  }

  lemma LockingKeepsVersion(s: State, w: nat, x: nat)
    requires Inv(s) && Enabled(s, w, Next) && (s.ws[w].pc.UnlockStore? || s.ws[w].pc.LockTry?) && x < |s.table|
    ensures var t, t' := s.table[x], NextStep(s, w).table[x]; t'.ver == t.ver && SameVersion(t.word, t'.word)
  {
    assert WorkerOk(s, w);
  }

  lemma InstallIncreases(s: State, w: nat, x: nat)
    requires Inv(s) && InRange(s, w) && s.ws[w].pc.Install? && x < |s.table|
    ensures s.table[x].ver <= InstallStep(s, w).table[x].ver
    ensures var t, t' := s.table[x], InstallStep(s, w).table[x];
            if t'.ver == t.ver then SameVersion(t.word, t'.word) else Before(t.word, t'.word)
  {
    var wk := s.ws[w];
    var k := wk.pc.k;
    if k < |wk.writeSet| && wk.pc.b >= VAL_SIZE && wk.writeSet[k] == x {
      assert WorkerOk(s, w) && SlotOk(s, w) && HeldOk(s, w, k) && KeyOk(s, x);
      VersionsIncrease(s.init, s.log, x, s.table[x].ver, wk.slot);
    }
  }

  /** Over a whole run: the (epoch, TID) of a tuple is never less than it was, and whatever was installed
      later carries a greater one, although locks come and go on the same word. */
  lemma {:induction false} WordsNeverGoBack(s: State, trace: seq<Label>, s': State, x: nat)
    requires Inv(s) && SlotsPending(s) && Reaches(s, trace, s') && Bounded(s') && x < |s.table|
    ensures x < |s'.table| && s.table[x].ver <= s'.table[x].ver
    ensures var t, t' := s.table[x], s'.table[x];
            if t'.ver == t.ver then SameVersion(t.word, t'.word) else Before(t.word, t'.word)
    decreases |trace|
  {
    if trace != [] {
      var l := trace[0];
      var t := Apply(s, l.worker, l.action);
      StepGrows(s, l.worker, l.action);
      RunGrows(s, trace, s');
      RunGrows(t, trace[1..], s');
      StepKeepsInv(s, l.worker, l.action);
      InstallsIncrease(s, l.worker, l.action, x);
      WordsNeverGoBack(t, trace[1..], s', x);
    }
  }

  /** Every TID in use in epoch e, in the table, a read set, a worker's maxima or its last commit TID, is
      at most the number of commits made in epoch e. */
  lemma TidFieldBound(init: seq<Value>, wvals: seq<Value>, s: State)
    requires Reachable(init, wvals, s)
    ensures forall x :: 0 <= x < |s.table| ==> s.table[x].word.tid <= Commits(s.log, s.table[x].word.epoch)
    ensures forall w, i :: 0 <= w < |s.ws| && 0 <= i < |s.ws[w].readSet| ==>
              s.ws[w].readSet[i].word.tid <= Commits(s.log, s.ws[w].readSet[i].word.epoch)
    ensures forall w :: 0 <= w < |s.ws| ==>
              && s.ws[w].last.tid <= Commits(s.log, s.ws[w].last.epoch)
              && s.ws[w].maxR.tid <= Commits(s.log, s.ws[w].maxR.epoch)
              && s.ws[w].maxW.tid <= Commits(s.log, s.ws[w].maxW.epoch)
  {
    ReachableInv(init, wvals, s);
    forall x | 0 <= x < |s.table| ensures s.table[x].word.tid <= Commits(s.log, s.table[x].word.epoch) {
      assert KeyOk(s, x);
      VersionWordOk(init, s.log, s.table[x].ver);
    }
    forall w, i | 0 <= w < |s.ws| && 0 <= i < |s.ws[w].readSet|
      ensures s.ws[w].readSet[i].word.tid <= Commits(s.log, s.ws[w].readSet[i].word.epoch)
    {
      assert WorkerOk(s, w) && ReadOk(s, s.ws[w].readSet[i]);
      VersionWordOk(init, s.log, s.ws[w].readSet[i].ver);
    }
    forall w | 0 <= w < |s.ws|
      ensures && s.ws[w].last.tid <= Commits(s.log, s.ws[w].last.epoch)
              && s.ws[w].maxR.tid <= Commits(s.log, s.ws[w].maxR.epoch)
              && s.ws[w].maxW.tid <= Commits(s.log, s.ws[w].maxW.epoch)
    {
      assert WorkerOk(s, w);
    }
  }

  // ---- Locks --------------------------------------------------------------------------------

  /** The lock bit of a tuple is set exactly while one worker holds it, and never two. */
  lemma LockDiscipline(init: seq<Value>, wvals: seq<Value>, s: State, x: nat)
    requires Reachable(init, wvals, s) && x < |s.table|
    ensures s.table[x].word.lock <==> exists w :: 0 <= w < |s.ws| && Holds(s.ws[w], x)
    ensures forall v, w :: 0 <= v < |s.ws| && 0 <= w < |s.ws| && Holds(s.ws[v], x) && Holds(s.ws[w], x) ==> v == w
  {
    ReachableInv(init, wvals, s);
    assert KeyOk(s, x);
    VersionWordOk(init, s.log, s.table[x].ver);
    forall w | 0 <= w < |s.ws| && Holds(s.ws[w], x) ensures s.table[x].owner == w {
      assert WorkerOk(s, w);
      var i :| Lo(s.ws[w].pc) <= i < Hi(s.ws[w].pc, |s.ws[w].writeSet|) &&
               i < |s.ws[w].writeSet| && s.ws[w].writeSet[i] == x;
      assert HeldOk(s, w, i);
    }
  }

  /** While w holds a tuple nobody else changes it, so an abort finds the word it locked. */
  lemma HeldUntouched(s: State, v: nat, a: Action, w: nat, x: nat)
    requires Inv(s) && Enabled(s, v, a) && v != w && w < |s.ws| && x < |s.table| && s.table[x].owner == w
    ensures Apply(s, v, a).table[x] == s.table[x]
  {
    var pc := s.ws[v].pc;
    if a.Next? && (pc.UnlockStore? || pc.Install?) {
      OwnTupleOnly(s, v, w, x);
    } else if a.Next? && pc.LockTry? {
      LockedNotTaken(s, v, w, x);
    } else if a.Next? {
      assert NextStep(s, v).table == s.table;
    }
  }

  lemma OwnTupleOnly(s: State, v: nat, w: nat, x: nat)
    requires Inv(s) && Enabled(s, v, Next) && v != w && x < |s.table| && s.table[x].owner == w
    requires s.ws[v].pc.UnlockStore? || s.ws[v].pc.Install?
    ensures NextStep(s, v).table[x] == s.table[x]
  {
    assert WorkerOk(s, v);
    if s.ws[v].pc.k < |s.ws[v].writeSet| { assert HeldOk(s, v, s.ws[v].pc.k); }
  }

  lemma LockedNotTaken(s: State, v: nat, w: nat, x: nat)
    requires Inv(s) && Enabled(s, v, Next) && x < |s.table| && s.table[x].owner == w && s.ws[v].pc.LockTry?
    ensures NextStep(s, v).table[x] == s.table[x]
  {
    assert KeyOk(s, x);
    VersionWordOk(s.init, s.log, s.table[x].ver);
  }

  /** Taking a lock adds the lock bit to the word and changes nothing else of the tuple. */
  lemma LockAddsBit(s: State, w: nat, x: nat)
    requires Inv(s) && Enabled(s, w, Next) && s.ws[w].pc.LockTry? && x < |s.table|
    ensures var t, t' := s.table[x], Apply(s, w, Next).table[x];
            t' == t || (!t.word.lock && t'.word == t.word.(lock := true) && t'.val == t.val && t'.ver == t.ver)
  {
    assert WorkerOk(s, w);
  }

  /** Releasing it in an abort takes the bit off again: the tuple shows its version as before the lock. */
  lemma UnlockRestores(s: State, w: nat)
    requires Inv(s) && Enabled(s, w, Next) && s.ws[w].pc.UnlockStore?
    ensures var x := s.ws[w].writeSet[s.ws[w].pc.k];
            var t, t' := s.table[x], Apply(s, w, Next).table[x];
            && t.word.lock && t.owner == w && t'.word == t.word.(lock := false) && t'.val == t.val && t'.ver == t.ver
            && t'.word == VersionWord(s.log, t.ver) && t'.val == VersionVal(s.init, s.log, x, t.ver)
  {
    var k := s.ws[w].pc.k;
    var x := s.ws[w].writeSet[k];
    assert WorkerOk(s, w) && HeldOk(s, w, k) && KeyOk(s, x);
    VersionWordOk(s.init, s.log, s.table[x].ver);
  }

  /** Outside the commit phases a worker holds nothing: an abort released every lock it took. */
  lemma NothingLeftLocked(init: seq<Value>, wvals: seq<Value>, s: State, w: nat)
    requires Reachable(init, wvals, s) && w < |s.ws| && !Sorted(s.ws[w].pc)
    ensures forall x :: 0 <= x < |s.table| ==> s.table[x].owner != w
  {
    ReachableInv(init, wvals, s);
    forall x | 0 <= x < |s.table| ensures s.table[x].owner != w { assert KeyOk(s, x); }
  }

  // ---- Progress -----------------------------------------------------------------------------

  /** A worker is never stuck at a step of its own: no access is out of bounds, no slot is missing. */
  lemma NeverStuck(init: seq<Value>, wvals: seq<Value>, s: State, w: nat)
    requires Reachable(init, wvals, s) && w < |s.ws|
    ensures match s.ws[w].pc
            case Idle => Enabled(s, w, Begin) && Enabled(s, w, EpochWork)
            case Running => Enabled(s, w, Commit)
            case Wal => Enabled(s, w, LogDone)
            case Finished => true
            case _ => Enabled(s, w, Next)
  {
    ReachableInv(init, wvals, s);
    assert WorkerOk(s, w);
    assert InWindow(s.ws[w].pc) ==> SlotOk(s, w);
    var wk := s.ws[w];
    forall i | 0 <= i < |wk.readSet| ensures wk.readSet[i].key < |s.table| { assert ReadOk(s, wk.readSet[i]); }
    forall x | 0 <= x < |s.table| ensures |s.table[x].val| == VAL_SIZE { assert KeyOk(s, x); }
  }
}
