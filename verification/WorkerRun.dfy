/** Runs in which one worker takes its steps alone: a transaction begins, comes to its validation, aborts or
    commits, and its log records go to a buffer. */
module WorkerRuns {
  import opened TidWords
  import opened WorkerLoops
  import opened SystemRuns
  import S = System
  import C = CommitModel
  import D = LogModel
  import DI = LogInv

  /** Worker w is between transactions. */
  predicate Rests(s: State, w: nat) {
    && w < |s.c.ws| && w < |s.d.ws| && s.c.ws[w].pc.Idle? && s.c.ws[w].readSet == [] && s.c.ws[w].writeSet == []
    && s.d.ws[w].pc.Free?
  }

  /** Worker w has loaded epoch e and is about to validate. */
  predicate InWindow(s: State, w: nat, e: nat) {
    && w < |s.c.ws| && w < |s.d.ws| && s.c.ws[w].pc == C.Validate(0) && s.c.ws[w].localEpoch == e
    && s.d.ws[w].pc == D.Window(e)
  }

  /** Worker w may begin an attempt of the operation op alone. */
  predicate Ready(s: State, w: nat, op: Op) {
    && Rests(s, w) && s.d.ws[w].cur.Some? && w < |s.ts| && Unpaused(s, w) && s.ts[w].ops == []
    && (s.ts[w].plan.None? || s.ts[w].plan.value == [op])
  }

  /** Worker w is in an attempt of the operation op alone. */
  predicate Tries(s: State, w: nat, op: Op) {
    && w < |s.ts| && s.ts[w].place.Run? && s.ts[w].ops == [op]
    && (s.ts[w].plan.None? || s.ts[w].plan.value == [op])
  }

  // ---- What single steps do to the worker ---------------------------------------------------

  predicate Turned(t: State, w: nat, wk: C.Worker, x: D.LogWorker, th: Thread) {
    w < |t.c.ws| && w < |t.d.ws| && w < |t.ts| && t.c.ws[w] == wk && t.d.ws[w] == x && t.ts[w] == th
  }

  lemma CallTurns(s: State, w: nat, a: C.Action)
    requires Enabled(s, Tx(w, a)) && w < |s.d.ws|
    ensures var wk, x, th, t := s.c.ws[w], s.d.ws[w], s.ts[w], Apply(s, Tx(w, a));
            match a
            case Begin => Turned(t, w, wk.(pc := C.Running, maxR := C.ZERO_WORD, maxW := C.ZERO_WORD),
                                 x.(pc := D.InTx), th.(place := Run))
            case Read(key) => Turned(t, w, wk.(pc := C.ReadLoad(key)), x, th.(ops := th.ops + [ReadOp(key)]))
            case Write(key) =>
              Turned(t, w, wk.(writeSet := wk.writeSet + [key]), x, th.(ops := th.ops + [WriteOp(key)]))
            case Commit => |wk.writeSet| <= 1 ==> Turned(t, w, wk.(pc := C.LockLoad(0)), x, th)
            case LogDone => Turned(t, w, wk.(pc := C.Install(0, 0)), x.(pc := D.Tail), th)
            case EpochWork =>
              Turned(t, w, wk.(pc := C.EwStore(s.c.ge)), x.(pc := D.EwLoaded(s.d.ge)),
                     th.(place := Back(th.place.pausing)))
            case _ => true
  {
    if a.Commit? && |s.c.ws[w].writeSet| <= 1 { SortOne(s.c.ws[w].writeSet); }
  }

  lemma SortOne(ks: seq<nat>)
    requires |ks| <= 1
    ensures C.Sort(ks) == ks
  {
    if ks != [] {
      assert ks[1..] == [] && C.Sort([]) == [];
      assert C.Insert(ks[0], []) == [ks[0]];
    }
  }

  /** The steps of read. */
  lemma ReadTurns(s: State, w: nat)
    requires Enabled(s, Tx(w, C.Next)) && w < |s.d.ws|
    ensures var wk, x, th, t := s.c.ws[w], s.d.ws[w], s.ts[w], Apply(s, Tx(w, C.Next));
            match wk.pc
            case ReadLoad(key) =>
              !s.c.table[key].word.lock ==>
                Turned(t, w, wk.(pc := C.ReadCopy(key, s.c.table[key].word, [], s.c.table[key].ver)), x, th)
            case ReadCopy(key, expected, buf, ver) =>
              if |buf| < C.VAL_SIZE then
                Turned(t, w, wk.(pc := C.ReadCopy(key, expected, buf + [s.c.table[key].val[|buf|]], ver)), x, th)
              else s.c.table[key].word == expected ==>
                var e := C.ReadElement(key, buf, expected, ver);
                Turned(t, w, wk.(pc := C.Running, readSet := wk.readSet + [e]), x, th)
            case _ => true
  {
  }

  /** The steps up to the read validation. */
  lemma LockTurns(s: State, w: nat)
    requires Enabled(s, Tx(w, C.Next)) && w < |s.d.ws|
    ensures var wk, x, th, t := s.c.ws[w], s.d.ws[w], s.ts[w], Apply(s, Tx(w, C.Next));
            match wk.pc
            case LockLoad(k) =>
              && t.c.log == s.c.log && t.c.table == s.c.table
              && Turned(t, w, wk.(pc := if k == |wk.writeSet| then C.EpochLoad
                                        else C.LockTry(k, s.c.table[wk.writeSet[k]].word)), x, th)
            case LockTry(k, expected) =>
              !expected.lock && s.c.table[wk.writeSet[k]].word == expected ==>
                && t.c.log == s.c.log && |t.c.table| == |s.c.table| && t.c.table[wk.writeSet[k]].word.lock
                && Turned(t, w, wk.(pc := C.LockLoad(k + 1), maxW := Max(wk.maxW, expected)), x, th)
            case EpochLoad =>
              && t.c.log == s.c.log + [C.Entry(w, s.c.ge, wk.readSet, wk.writeSet, s.c.wvals[w], C.Pending)]
              && t.c.table == s.c.table
              && Turned(t, w, wk.(pc := C.EpochStore(s.c.ge), slot := |s.c.log|), x.(pc := D.Window(s.d.ge)), th)
            case EpochStore(epoch) =>
              && t.c.log == s.c.log && t.c.table == s.c.table
              && Turned(t, w, wk.(pc := C.Validate(0), localEpoch := epoch), x, th)
            case _ => true
  {
  }

  /** The steps from the read validation on. */
  lemma EndTurns(s: State, w: nat)
    requires Enabled(s, Tx(w, C.Next)) && w < |s.d.ws|
    ensures var wk, x, th, t := s.c.ws[w], s.d.ws[w], s.ts[w], Apply(s, Tx(w, C.Next));
            match wk.pc
            case Validate(k) =>
              if k == |wk.readSet| then t.d == s.d && t.c.log == s.c.log && Turned(t, w, wk.(pc := C.WriteTid), x, th)
              else
                var r := wk.readSet[k]; var check := s.c.table[r.key].word;
                if check.lock then
                  wk.writeSet == [] ==> Turned(t, w, wk.(pc := C.UnlockLoad(0, 0)), x.(pc := D.Tail), th)
                else
                  SameVersion(r.word, check) ==>
                    Turned(t, w, wk.(pc := C.Validate(k + 1), maxR := Max(wk.maxR, check)), x, th)
            case UnlockLoad(k, end) =>
              k == end ==> Turned(t, w, wk.(pc := C.Idle, readSet := [], writeSet := []), x.(pc := D.Free),
                                  Thread(Retry, [], D.Some(th.ops)))
            case Install(k, b) =>
              && t.c.log == s.c.log && |t.c.table| == |s.c.table|
              && if k == |wk.writeSet| then
                   t.c.table == s.c.table &&
                   Turned(t, w, wk.(pc := C.Idle, readSet := [], writeSet := []), x.(pc := D.Free), START)
                 else if b < C.VAL_SIZE then Turned(t, w, wk.(pc := C.Install(k, b + 1)), x, th)
                 else t.c.table[wk.writeSet[k]].word == wk.last && Turned(t, w, wk.(pc := C.Install(k + 1, 0)), x, th)
            case _ => true
  {
  }

  // ---- When they can be taken ---------------------------------------------------------------

  lemma CanBegin(g: S.Config, s: State, room: nat, w: nat)
    requires Here(g, s, room) && Rests(s, w) && s.d.ws[w].cur.Some? && w < |s.ts| && Unpaused(s, w)
    ensures Enabled(s, Tx(w, C.Begin))
  {
    Placed(g, s, room);
    HereReachable(g, s, room);
    CanMove(g, s, w);
  }

  /** A running transaction can go on with its next operation or commit. */
  lemma CanCall(g: S.Config, s: State, room: nat, w: nat)
    requires Here(g, s, room) && w < |s.c.ws| && s.c.ws[w].pc.Running? && w < |s.ts|
    ensures Complete(s.ts[w]) ==> Enabled(s, Tx(w, C.Commit))
    ensures s.c.ws[w].readSet == [] && s.c.ws[w].writeSet == [] && |s.c.table| > 0 ==>
              && (Follows(s.ts[w], ReadOp(0)) ==> Enabled(s, Tx(w, C.Read(0))))
              && (Follows(s.ts[w], WriteOp(0)) ==> Enabled(s, Tx(w, C.Write(0))))
  {
    HereReachable(g, s, room);
    CanMove(g, s, w);
  }

  lemma CanReturn(g: S.Config, s: State, room: nat, w: nat)
    requires Here(g, s, room) && w < |s.c.ws| && w < |s.d.ws| && s.c.ws[w].pc.Wal? && s.d.ws[w].pc.WalDone?
    ensures Enabled(s, Tx(w, C.LogDone))
  {
    HereReachable(g, s, room);
    CanMove(g, s, w);
    assert D.WorkerIn(s.d, w) by { Placed(g, s, room); }
    assert w < |s.ts| by { Placed(g, s, room); }
    ReturnEnabled(Sys(s), w);
  }

  lemma ReturnEnabled(s: S.State, w: nat)
    requires C.InRange(s.c, w) && s.c.ws[w].pc.Wal? && D.WorkerIn(s.d, w) && s.d.ws[w].pc.WalDone?
    ensures S.Enabled(s, S.Tx(w, C.LogDone))
  {
  }

  // ---- Up to the validation -----------------------------------------------------------------

  lemma Begins(g: S.Config, s: State, room: nat, w: nat, op: Op) returns (t: State)
    requires Here(g, s, room) && Ready(s, w, op)
    ensures Here(g, t, room) && Only(s, t, w) && t.c.log == s.c.log
    ensures t.c.ws[w] == s.c.ws[w].(pc := C.Running, maxR := C.ZERO_WORD, maxW := C.ZERO_WORD)
    ensures t.d.ws[w] == s.d.ws[w].(pc := D.InTx) && t.ts[w] == s.ts[w].(place := Run) && Follows(t.ts[w], op)
  {
    CanBegin(g, s, room, w);
    CallTurns(s, w, C.Begin);
    t := GoLocal(g, s, room, w, C.Begin);
    assert [] + [op] == [op];
  }

  /** validationPhase without a write set, up to the read validation. */
  lemma EntersWindow(g: S.Config, s: State, room: nat, w: nat) returns (t: State)
    requires Here(g, s, room) && room > 0 && w < |s.c.ws| && w < |s.d.ws| && w < |s.ts| && Complete(s.ts[w])
    requires s.c.ws[w].pc == C.Running && s.c.ws[w].writeSet == [] && s.d.ws[w].pc == D.InTx
    ensures Here(g, t, room) && Only(s, t, w)
    ensures t.c.ws[w] == s.c.ws[w].(pc := C.Validate(0), localEpoch := s.c.ge, slot := |s.c.log|)
    ensures t.d.ws[w] == s.d.ws[w].(pc := D.Window(s.c.ge)) && t.ts[w] == s.ts[w]
  {
    CanCall(g, s, room, w);
    CallTurns(s, w, C.Commit);
    var t1 := GoLocal(g, s, room, w, C.Commit);
    t := LoadsEpoch(g, t1, room, w);
    OnlyThen(s, t1, t, w);
  }

  lemma LoadsEpoch(g: S.Config, s: State, room: nat, w: nat) returns (t: State)
    requires Here(g, s, room) && room > 0 && w < |s.c.ws| && w < |s.d.ws| && w < |s.ts|
    requires s.c.ws[w].pc == C.LockLoad(0) && s.c.ws[w].writeSet == [] && s.d.ws[w].pc == D.InTx
    ensures Here(g, t, room) && Only(s, t, w)
    ensures t.c.ws[w] == s.c.ws[w].(pc := C.Validate(0), localEpoch := s.c.ge, slot := |s.c.log|)
    ensures t.d.ws[w] == s.d.ws[w].(pc := D.Window(s.c.ge)) && t.ts[w] == s.ts[w]
  {
    Placed(g, s, room);
    var t1 := Next(g, s, room, w);
    LockTurns(s, w);
    var t2 := Next(g, t1, room, w);
    LockTurns(t1, w);
    t := Next(g, t2, room, w);
    LockTurns(t2, w);
    OnlyThen(s, t1, t2, w);
    OnlyThen(s, t2, t, w);
  }

  // ---- An abort -----------------------------------------------------------------------------

  /** A validation that finds the tuple it read locked by another. */
  lemma Aborts(g: S.Config, s: State, room: nat, w: nat) returns (t: State)
    requires Here(g, s, room) && room > 0 && InWindow(s, w, s.c.ge) && s.c.ws[w].writeSet == [] && w < |s.ts|
    requires |s.c.ws[w].readSet| == 1 && s.c.ws[w].readSet[0].key < |s.c.table|
    requires s.c.table[s.c.ws[w].readSet[0].key].word.lock
    ensures Here(g, t, room) && Only(s, t, w) && Rests(t, w)
    ensures t.c.ws[w].localEpoch == s.c.ws[w].localEpoch && t.d.ws[w] == s.d.ws[w].(pc := D.Free)
    ensures t.ts[w] == Thread(Retry, [], D.Some(s.ts[w].ops))
  {
    var t1 := Next(g, s, room, w);
    EndTurns(s, w);
    t := Next(g, t1, room, w);
    EndTurns(t1, w);
    OnlyThen(s, t1, t, w);
  }

  // ---- A commit -----------------------------------------------------------------------------

  lemma TidFits(g: S.Config, s: State, room: nat, w: nat)
    requires Here(g, s, room) && room > 1 && w < |s.c.ws| && s.c.ws[w].pc.WriteTid?
    ensures var wk := s.c.ws[w]; var ctid := CommitTid(wk.maxW, wk.maxR, wk.last, wk.localEpoch);
            && ctid.Valid() && !ctid.lock && |wk.writeSet| <= C.MAX_OPE
            && wk.slot < |s.c.log| && ctid.epoch == wk.localEpoch == s.c.log[wk.slot].epoch
    ensures |s.c.wvals| == |s.c.ws|
  {
    HereReachable(g, s, room);
    assert C.Commits(s.c.log, s.c.ws[w].localEpoch) + room < TID_LIMIT;
    S.WriteTidFits(s.c, w);
  }

  /** The read validation is over; the commit TID is fixed. */
  lemma Decides(g: S.Config, s: State, room: nat, w: nat) returns (t: State)
    requires Here(g, s, room) && room > 1 && w < |s.c.ws| && s.c.ws[w].pc == C.Validate(|s.c.ws[w].readSet|)
    requires w < |s.d.ws| && s.d.ws[w].pc == D.Window(s.c.ws[w].localEpoch) && w < |s.ts|
    ensures Here(g, t, room - 1) && Others(s, t, w) && t.c.table == s.c.table && t.d.ls == s.d.ls
    ensures LogKept(s.c.log, t.c.log, w) && |t.c.log| == |s.c.log| && t.ts[w] == s.ts[w]
    ensures t.c.ws[w] == s.c.ws[w].(pc := C.Wal, last := t.c.ws[w].last)
    ensures var ctid := t.c.ws[w].last;
            && ctid.Valid() && ctid.epoch == s.c.ws[w].localEpoch && ctid != D.ALL_ONES && !ctid.lock
            && s.c.ws[w].slot < |s.c.log| && t.c.log[s.c.ws[w].slot].st == C.Committed(ctid)
            && w < |s.c.wvals| && D.Enabled(s.d, D.WalBegin(w, ctid, s.c.ws[w].writeSet, s.c.wvals[w]))
            && t.d == D.WalBeginStep(s.d, w, ctid, s.c.ws[w].writeSet, s.c.wvals[w])
  {
    var t1 := Next(g, s, room, w);
    EndTurns(s, w);
    TidFits(g, t1, room, w);
    t := Next(g, t1, room, w);
    TidStored(t1, w);
    OnlyThen(s, t1, t, w);
  }

  /** The step that fixes a commit TID and hands the records to wal. */
  lemma TidStored(s: State, w: nat)
    requires Enabled(s, Tx(w, C.Next)) && s.c.ws[w].pc.WriteTid?
    ensures var wk := s.c.ws[w]; var ctid := CommitTid(wk.maxW, wk.maxR, wk.last, wk.localEpoch);
              var t := Apply(s, Tx(w, C.Next));
            && t.c.ws == s.c.ws[w := wk.(pc := C.Wal, last := ctid)]
            && t.c.log == s.c.log[wk.slot := s.c.log[wk.slot].(st := C.Committed(ctid))]
            && D.Enabled(s.d, D.WalBegin(w, ctid, wk.writeSet, s.c.wvals[w])) && t.ts == s.ts
            && t.d == D.WalBeginStep(s.d, w, ctid, wk.writeSet, s.c.wvals[w])
  {
  }

  /** wal has returned and there is nothing to install. */
  lemma EndsEmpty(g: S.Config, s: State, room: nat, w: nat) returns (t: State)
    requires Here(g, s, room) && room > 0 && w < |s.c.ws| && w < |s.d.ws| && w < |s.ts|
    requires s.c.ws[w].pc == C.Wal && s.c.ws[w].writeSet == [] && s.d.ws[w].pc == D.WalDone
    ensures Here(g, t, room) && Only(s, t, w) && Rests(t, w)
    ensures t.c.ws[w].localEpoch == s.c.ws[w].localEpoch && t.d.ws[w] == s.d.ws[w].(pc := D.Free) && t.ts[w] == START
  {
    var t1 := Returns(g, s, room, w);
    t := Next(g, t1, room, w);
    EndTurns(t1, w);
    OnlyThen(s, t1, t, w);
  }

  lemma Returns(g: S.Config, s: State, room: nat, w: nat) returns (t: State)
    requires Here(g, s, room) && w < |s.c.ws| && w < |s.d.ws| && s.c.ws[w].pc == C.Wal && s.d.ws[w].pc == D.WalDone
    ensures Here(g, t, room) && Only(s, t, w)
    ensures t.c.ws[w] == s.c.ws[w].(pc := C.Install(0, 0)) && t.d.ws[w] == s.d.ws[w].(pc := D.Tail)
  {
    CanReturn(g, s, room, w);
    CallTurns(s, w, C.LogDone);
    t := GoLocal(g, s, room, w, C.LogDone);
  }

  // ---- The records of a commit --------------------------------------------------------------

  /** A step of w in its pool: its buffers and its logger's queue. */
  lemma PoolStep(g: S.Config, s: State, room: nat, w: nat) returns (t: State)
    requires Here(g, s, room) && D.Enabled(s.d, D.WorkerStep(w)) && !s.d.ws[w].pc.Ending?
    ensures t == s.(d := D.WorkerStepOf(s.d, w)) && Here(g, t, room)
  {
    t := GoPipe(g, s, room, D.WorkerStep(w));
  }

  /** A first commit, or the first of an epoch, when the current buffer was never used. */
  lemma LogsFresh(g: S.Config, s: State, room: nat, w: nat) returns (t: State)
    requires Here(g, s, room) && w < |s.d.ws| && s.d.ws[w].pc.WalPublish? && s.d.ws[w].pc.begins
    requires s.d.ws[w].cur.Some? && DI.Clean(s.d.ws[w].cur.value) && !s.d.ws[w].cur.value.used
    requires |s.d.ws[w].pc.push| <= 1
    ensures Here(g, t, room) && t == s.(d := t.d) && |t.d.ws| == |s.d.ws| && t.d == s.d.(ws := s.d.ws[w := t.d.ws[w]])
    ensures var x := s.d.ws[w];
            t.d.ws[w] == x.(pc := D.WalDone, ctidw := x.pc.ctid,
                            cur := D.Some(D.Append(x.cur.value, x.pc.ctid, x.pc.push)),
                            hist := if x.pc.push == [] then x.hist else x.hist + [x.pc.push])
  {
    assert D.WorkerIn(s.d, w) by { Placed(g, s, room); }
    var x := s.d.ws[w];
    var t1 := PoolStep(g, s, room, w);
    assert t1.d.ws[w] == x.(pc := D.WalAppend(x.pc.ctid, x.pc.push, true));
    assert t1.d == s.d.(ws := s.d.ws[w := t1.d.ws[w]]);
    t := AppendsStores(g, t1, room, w);
  }

  lemma OneTotal(push: D.Push)
    ensures D.Total([push]) == |push|
  {
    assert [push][..|[push]| - 1] == [];
  }

  lemma SmallAppend(b: D.Buffer, ctid: TidWord, push: D.Push)
    requires b.pushes == [] && |push| <= 1
    ensures D.Size(D.Append(b, ctid, push)) == |push|
  {
    OneTotal(push);
    if push != [] { assert b.pushes + [push] == [push]; }
  }

  lemma AppendsStores(g: S.Config, s: State, room: nat, w: nat) returns (t: State)
    requires Here(g, s, room) && w < |s.d.ws| && s.d.ws[w].pc.WalAppend? && s.d.ws[w].pc.begins
    requires s.d.ws[w].cur.Some? && DI.Clean(s.d.ws[w].cur.value) && |s.d.ws[w].pc.push| <= 1
    ensures Here(g, t, room) && t == s.(d := t.d) && |t.d.ws| == |s.d.ws| && t.d == s.d.(ws := s.d.ws[w := t.d.ws[w]])
    ensures var x := s.d.ws[w];
            t.d.ws[w] == x.(pc := D.WalDone, ctidw := x.pc.ctid,
                            cur := D.Some(D.Append(x.cur.value, x.pc.ctid, x.pc.push)),
                            hist := if x.pc.push == [] then x.hist else x.hist + [x.pc.push])
  {
    assert D.WorkerIn(s.d, w) by { Placed(g, s, room); }
    var x := s.d.ws[w];
    SmallAppend(x.cur.value, x.pc.ctid, x.pc.push);
    var t1 := PoolStep(g, s, room, w);
    assert t1.d.ws[w].pc == D.WalStore(x.pc.ctid, true);
    assert t1.d == s.d.(ws := s.d.ws[w := t1.d.ws[w]]);
    t := PoolStep(g, t1, room, w);
  }

  /** A commit that begins an epoch when the current buffer was used: it goes to the queue. */
  lemma LogsAfresh(g: S.Config, s: State, room: nat, w: nat) returns (t: State)
    requires Here(g, s, room) && D.WorkerIn(s.d, w) && s.d.ws[w].pc.WalPublish? && s.d.ws[w].pc.begins
    requires s.d.ws[w].cur.Some? && s.d.ws[w].cur.value.used && |s.d.ws[w].free| > 0 && s.d.ws[w].pc.push == []
    ensures Here(g, t, room) && t == s.(d := t.d)
    ensures var l := s.d.loggerOf[w];
            && |t.d.ws| == |s.d.ws| && |t.d.ls| == |s.d.ls|
            && t.d == s.d.(ws := s.d.ws[w := t.d.ws[w]], ls := s.d.ls[l := t.d.ls[l]])
            && t.d.ls[l] == s.d.ls[l].(queue := D.Enq(s.d.ls[l].queue, s.d.ws[w].cur.value))
            && t.d.ws[w].pc.WalDone? && t.d.ws[w].ctidw == s.d.ws[w].pc.ctid
  {
    var x := s.d.ws[w];
    var l := s.d.loggerOf[w];
    var t1 := PoolStep(g, s, room, w);
    assert t1.d.ws[w] == x.(pc := D.WalAppend(x.pc.ctid, [], true), cur := D.None);
    HereReachable(g, t1, room);
    assert DI.WorkerOk(t1.d.ws[w], w, t1.d.ge);
    var t2 := PoolStep(g, t1, room, w);
    assert t2.d.ws[w] == D.TakeBuffer(t1.d.ws[w]);
    t := AppendsStores(g, t2, room, w);
  }

  // ---- A transaction that reads tuple 0 -----------------------------------------------------

  /** Worker w has read tuple 0 and goes on. */
  predicate HasRead(s: State, w: nat) {
    && w < |s.c.ws| && w < |s.d.ws| && s.c.ws[w].pc == C.Running && s.c.ws[w].writeSet == []
    && |s.c.ws[w].readSet| == 1 && s.c.ws[w].readSet[0].key == 0 && s.d.ws[w].pc == D.InTx
    && Tries(s, w, ReadOp(0))
  }

  predicate TupleFree(c: C.State) {
    |c.table| > 0 && !c.table[0].word.lock
  }

  lemma Reads(g: S.Config, s: State, room: nat, w: nat) returns (t: State)
    requires Here(g, s, room) && room > 0 && Ready(s, w, ReadOp(0)) && TupleFree(s.c)
    ensures Here(g, t, room) && Only(s, t, w) && HasRead(t, w) && t.c.ws[w].readSet[0].word == s.c.table[0].word
    ensures t.c.ws[w].localEpoch == s.c.ws[w].localEpoch && t.d.ws[w] == s.d.ws[w].(pc := D.InTx)
  {
    var t1 := Begins(g, s, room, w, ReadOp(0));
    CanCall(g, t1, room, w);
    CallTurns(t1, w, C.Read(0));
    var t2 := GoLocal(g, t1, room, w, C.Read(0));
    assert [] + [ReadOp(0)] == [ReadOp(0)];
    var t3 := Next(g, t2, room, w);
    ReadTurns(t2, w);
    t := Copies(g, t3, room, w);
    OnlyThen(s, t1, t2, w);
    OnlyThen(s, t2, t3, w);
    OnlyThen(s, t3, t, w);
  }

  lemma {:induction false} Copies(g: S.Config, s: State, room: nat, w: nat) returns (t: State)
    requires Here(g, s, room) && room > 0 && w < |s.c.ws| && w < |s.d.ws| && |s.c.table| > 0
    requires s.c.ws[w].pc.ReadCopy? && s.c.ws[w].pc.rkey == 0 && s.c.ws[w].pc.expected == s.c.table[0].word
    requires |s.c.ws[w].pc.buf| <= C.VAL_SIZE && s.c.ws[w].readSet == [] && s.c.ws[w].writeSet == []
    requires s.d.ws[w].pc == D.InTx && Tries(s, w, ReadOp(0))
    ensures Here(g, t, room) && Only(s, t, w) && HasRead(t, w) && t.c.ws[w].readSet[0].word == s.c.table[0].word
    ensures t.c.ws[w].localEpoch == s.c.ws[w].localEpoch && t.d.ws[w] == s.d.ws[w]
    decreases C.VAL_SIZE - |s.c.ws[w].pc.buf|
  {
    var t1 := Next(g, s, room, w);
    ReadTurns(s, w);
    if |s.c.ws[w].pc.buf| == C.VAL_SIZE {
      t := t1;
    } else {
      t := Copies(g, t1, room, w);
      OnlyThen(s, t1, t, w);
    }
  }

  /** It loads the current epoch and is about to validate. */
  lemma ReadsIntoWindow(g: S.Config, s: State, room: nat, w: nat) returns (t: State)
    requires Here(g, s, room) && room > 0 && Ready(s, w, ReadOp(0)) && TupleFree(s.c)
    ensures Here(g, t, room) && Only(s, t, w) && InWindow(t, w, s.c.ge) && Tries(t, w, ReadOp(0))
    ensures t.c.ws[w].writeSet == [] && |t.c.ws[w].readSet| == 1 && t.c.ws[w].readSet[0].key == 0
    ensures t.c.ws[w].readSet[0].word == s.c.table[0].word && t.d.ws[w] == s.d.ws[w].(pc := D.Window(s.c.ge))
  {
    var t1 := Reads(g, s, room, w);
    t := EntersWindow(g, t1, room, w);
    OnlyThen(s, t1, t, w);
  }

  /** Its commit takes the worker's CTIDW into the current epoch. */
  lemma ReadToWal(g: S.Config, s: State, room: nat, w: nat) returns (t: State)
    requires Here(g, s, room) && room > 1 && Ready(s, w, ReadOp(0)) && TupleFree(s.c) && s.d.ws[w].ctidw.epoch != s.c.ge
    ensures Here(g, t, room - 1) && Only(s, t, w)
    ensures t.c.ws[w].pc == C.Wal && t.c.ws[w].writeSet == [] && t.c.ws[w].localEpoch == s.c.ge
    ensures var ctid := t.c.ws[w].last;
            && ctid.Valid() && ctid.epoch == s.c.ge && ctid != D.ALL_ONES
            && t.d.ws[w] == s.d.ws[w].(pc := D.WalPublish(ctid, [], true))
  {
    var t1 := ReadsIntoWindow(g, s, room, w);
    var t2 := Next(g, t1, room, w);
    EndTurns(t1, w);
    t := Decides(g, t2, room, w);
    OnlyThen(s, t1, t2, w);
    OnlyThen(s, t2, t, w);
    assert D.Records(t.c.ws[w].last, [], s.c.wvals[w]) == [];
  }

  lemma ReadTx(g: S.Config, s: State, room: nat, w: nat) returns (t: State)
    requires Here(g, s, room) && room > 1 && Ready(s, w, ReadOp(0)) && TupleFree(s.c) && s.d.ws[w].ctidw.epoch != s.c.ge
    requires DI.Clean(s.d.ws[w].cur.value) && !s.d.ws[w].cur.value.used
    ensures Here(g, t, room - 1) && Only(s, t, w) && Rests(t, w) && t.c.ws[w].localEpoch == s.c.ge && t.ts[w] == START
    ensures t.d.ws[w].ctidw.Valid() && t.d.ws[w].ctidw.epoch == s.c.ge
    ensures DI.Real(t.d.ws[w].ctidw) && t.d.ws[w].free == s.d.ws[w].free
    ensures var b := t.d.ws[w].cur;
            && b.Some? && b.value.owner == s.d.ws[w].cur.value.owner && b.value.used && b.value.pushes == []
            && b.value.minEpoch == s.c.ge
  {
    var t1 := ReadToWal(g, s, room, w);
    HereReachable(g, t1, room - 1);
    var t2 := LogsFresh(g, t1, room - 1, w);
    t := EndsEmpty(g, t2, room - 1, w);
    assert Only(t1, t2, w);
    OnlyThen(s, t1, t2, w);
    OnlyThen(s, t2, t, w);
  }

  /** When the current buffer was used before, it goes to the queue on the way. */
  lemma ReadTxAfresh(g: S.Config, s: State, room: nat, w: nat) returns (t: State)
    requires Here(g, s, room) && room > 1 && Ready(s, w, ReadOp(0)) && TupleFree(s.c) && s.d.ws[w].ctidw.epoch != s.c.ge
    requires s.d.ws[w].cur.value.used && s.d.ws[w].free != [] && D.WorkerIn(s.d, w)
    ensures Here(g, t, room - 1) && Others(s, t, w) && t.c.table == s.c.table && LogKept(s.c.log, t.c.log, w)
    ensures Rests(t, w) && t.c.ws[w].localEpoch == s.c.ge
    ensures t.d.ws[w].ctidw.Valid() && t.d.ws[w].ctidw.epoch == s.c.ge && DI.Real(t.d.ws[w].ctidw)
    ensures var l := s.d.loggerOf[w];
            && t.d.ls == s.d.ls[l := t.d.ls[l]]
            && t.d.ls[l] == s.d.ls[l].(queue := D.Enq(s.d.ls[l].queue, s.d.ws[w].cur.value))
  {
    var t1 := ReadToWal(g, s, room, w);
    HereReachable(g, t1, room - 1);
    var t2 := LogsAfresh(g, t1, room - 1, w);
    t := EndsEmpty(g, t2, room - 1, w);
    LogKeptThen(s.c.log, t1.c.log, t.c.log, w);
  }

  // ---- A transaction that writes tuple 0 ----------------------------------------------------

  /** It begins, locks the tuple, and loads the epoch. */
  lemma LocksTuple(g: S.Config, s: State, room: nat, w: nat) returns (t: State)
    requires Here(g, s, room) && room > 0 && Ready(s, w, WriteOp(0)) && TupleFree(s.c)
    ensures Here(g, t, room) && Others(s, t, w) && t.d.ls == s.d.ls && InWindow(t, w, s.c.ge)
    ensures t.c.ws[w].readSet == [] && t.c.ws[w].writeSet == [0] && t.c.ws[w].slot == |s.c.log|
    ensures t.d.ws[w] == s.d.ws[w].(pc := D.Window(s.c.ge)) && w < |s.c.wvals|
    ensures t.c.log == s.c.log + [C.Entry(w, s.c.ge, [], [0], s.c.wvals[w], C.Pending)] && t.c.table[0].word.lock
  {
    var t1 := AddsWrite(g, s, room, w);
    CanCall(g, t1, room, w);
    CallTurns(t1, w, C.Commit);
    var t2 := GoLocal(g, t1, room, w, C.Commit);
    var t3 := Locks(g, t2, room, w);
    t := LoadsOne(g, t3, room, w);
  }

  lemma AddsWrite(g: S.Config, s: State, room: nat, w: nat) returns (t: State)
    requires Here(g, s, room) && Ready(s, w, WriteOp(0)) && |s.c.table| > 0
    ensures Here(g, t, room) && Only(s, t, w) && t.c.log == s.c.log && t.d.ws[w] == s.d.ws[w].(pc := D.InTx)
    ensures t.c.ws[w].pc == C.Running && t.c.ws[w].readSet == [] && t.c.ws[w].writeSet == [0] && Complete(t.ts[w])
  {
    var t1 := Begins(g, s, room, w, WriteOp(0));
    CanCall(g, t1, room, w);
    CallTurns(t1, w, C.Write(0));
    t := GoLocal(g, t1, room, w, C.Write(0));
    assert [] + [WriteOp(0)] == [WriteOp(0)];
    OnlyThen(s, t1, t, w);
  }

  lemma Locks(g: S.Config, s: State, room: nat, w: nat) returns (t: State)
    requires Here(g, s, room) && room > 0 && w < |s.c.ws| && w < |s.d.ws| && TupleFree(s.c)
    requires s.c.ws[w].pc == C.LockLoad(0) && s.c.ws[w].writeSet == [0]
    ensures Here(g, t, room) && Others(s, t, w) && t.d.ls == s.d.ls && t.c.log == s.c.log && t.c.table[0].word.lock
    ensures t.c.ws[w] == s.c.ws[w].(pc := C.LockLoad(1), maxW := t.c.ws[w].maxW) && t.d.ws[w] == s.d.ws[w]
  {
    var t1 := NextAny(g, s, room, w);
    LockTurns(s, w);
    t := NextAny(g, t1, room, w);
    LockTurns(t1, w);
  }

  lemma LoadsOne(g: S.Config, s: State, room: nat, w: nat) returns (t: State)
    requires Here(g, s, room) && room > 0 && w < |s.c.ws| && w < |s.d.ws| && s.d.ws[w].pc == D.InTx
    requires s.c.ws[w].pc == C.LockLoad(1) && s.c.ws[w].writeSet == [0] && s.c.ws[w].readSet == []
    ensures Here(g, t, room) && Others(s, t, w) && t.d.ls == s.d.ls && t.c.table == s.c.table && w < |s.c.wvals|
    ensures t.c.ws[w] == s.c.ws[w].(pc := C.Validate(0), localEpoch := s.c.ge, slot := |s.c.log|)
    ensures t.d.ws[w] == s.d.ws[w].(pc := D.Window(s.c.ge))
    ensures t.c.log == s.c.log + [C.Entry(w, s.c.ge, [], [0], s.c.wvals[w], C.Pending)]
  {
    Placed(g, s, room);
    var t1 := NextAny(g, s, room, w);
    LockTurns(s, w);
    var t2 := NextAny(g, t1, room, w);
    LockTurns(t1, w);
    t := NextAny(g, t2, room, w);
    LockTurns(t2, w);
  }

  /** The value is copied byte by byte, the word stored, and the transaction ends. */
  lemma {:induction false} Installs(g: S.Config, s: State, room: nat, w: nat) returns (t: State)
    requires Here(g, s, room) && room > 0 && w < |s.c.ws| && w < |s.d.ws| && w < |s.ts| && s.c.ws[w].writeSet == [0]
    requires s.c.ws[w].pc.Install? && s.c.ws[w].pc.k <= 1 && s.c.ws[w].pc.b <= C.VAL_SIZE && |s.c.table| > 0
    requires s.c.ws[w].pc.k == 1 ==> s.c.ws[w].pc.b == 0 && TupleFree(s.c)
    requires s.d.ws[w].pc == D.Tail && !s.c.ws[w].last.lock
    ensures Here(g, t, room) && Others(s, t, w) && t.d.ls == s.d.ls && t.c.log == s.c.log && Rests(t, w)
    ensures t.c.ws[w].localEpoch == s.c.ws[w].localEpoch && t.d.ws[w] == s.d.ws[w].(pc := D.Free)
    ensures t.ts[w] == START && TupleFree(t.c)
    decreases 1 - s.c.ws[w].pc.k, C.VAL_SIZE - s.c.ws[w].pc.b
  {
    var t1 := NextAny(g, s, room, w);
    EndTurns(s, w);
    if s.c.ws[w].pc.k == 1 { t := t1; } else { t := Installs(g, t1, room, w); }
  }
}
