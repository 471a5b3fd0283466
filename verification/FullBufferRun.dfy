/** A run in which one worker fills all its buffers in epoch 1, so that it then waits for one in epochWork,
    which raises its CTIDW. It exists in every configuration and for every EPOCH_DIFF. */
module FullBuffers {
  import opened TidWords
  import opened WorkerLoops
  import opened SystemRuns
  import S = System
  import WR = WorkerRuns
  import C = CommitModel
  import D = LogModel
  import DI = LogInv

  predicate Fresh(s: State, v: nat) {
    && v < |s.c.ws| && v < |s.d.ws| && v < |s.ts|
    && s.c.ws[v] == C.InitWorker() && s.d.ws[v] == D.InitWorker(v) && s.ts[v] == START
  }

  function AllInit(g: S.Config): seq<D.Logger> {
    seq(|g.members|, j requires 0 <= j < |g.members| => D.InitLogger(g.members[j]))
  }

  lemma StartsFresh(g: S.Config)
    requires S.ValidConfig(g)
    ensures forall v :: 0 <= v < |g.loggerOf| ==> Fresh(InitState(g), v)
    ensures InitState(g).d.ls == AllInit(g)
  {
  }

  lemma Served(g: S.Config, l: nat, w: nat)
    requires S.ValidConfig(g) && l < |g.members| && w in g.members[l]
    ensures w < |g.loggerOf| && g.loggerOf[w] == l
  {
    var i :| 0 <= i < |g.members[l]| && g.members[l][i] == w;
    assert g.members[l][i] < |g.loggerOf| && g.loggerOf[g.members[l][i]] == l;
  }

  // ---- Worker b fills its buffers in epoch 1 ------------------------------------------------

  /** Buffers of b, all of epoch 1. */
  predicate OfFirst(q: seq<D.Buffer>, b: nat) {
    forall i :: 0 <= i < |q| ==> q[i].owner == b && q[i].minEpoch == 1 && q[i].used
  }

  function Hand(x: D.LogWorker): nat {
    |x.free| + if x.cur.Some? then 1 else 0
  }

  /** All loggers, but for the queue of logger l, are as they were at the start. */
  ghost predicate LoggersIdle(g: S.Config, s: State, l: nat) {
    && l < |g.members| == |s.d.ls|
    && s.d.ls == AllInit(g)[l := D.InitLogger(g.members[l]).(queue := s.d.ls[l].queue)]
  }

  /** Only b has moved, and nothing is written yet. */
  ghost predicate Filling(g: S.Config, s: State, l: nat, b: nat) {
    && S.ValidConfig(g) && WR.Rests(s, b) && WR.TupleFree(s.c) && s.c.ge == 1 && s.d.durable == 0
    && |s.c.ws| == |s.d.ws| == |s.ts| == |g.loggerOf| && s.ts[b] == START
    && (forall v :: 0 <= v < |s.c.ws| && v != b ==> Fresh(s, v))
    && LoggersIdle(g, s, l) && b in g.members[l] && OfFirst(s.d.ls[l].queue, b)
    && Hand(s.d.ws[b]) + |s.d.ls[l].queue| == D.BUFFER_NUM
    && (Fresh(s, b) ||
        (s.c.ws[b].localEpoch == 1 && s.d.ws[b].ctidw.Valid() && s.d.ws[b].ctidw.epoch == 1))
  }

  /** Records that still fit. */
  function Left(x: D.LogWorker): nat {
    |x.free| * (D.LOG_BUFFER_SIZE + 1) +
    if x.cur.Some? && D.Size(x.cur.value) <= D.LOG_BUFFER_SIZE then D.LOG_BUFFER_SIZE - D.Size(x.cur.value) else 0
  }

  lemma TotalMore(ps: seq<D.Push>, p: D.Push)
    ensures D.Total(ps + [p]) == D.Total(ps) + |p|
  {
    assert (ps + [p])[..|ps + [p]| - 1] == ps;
  }

  /** The commit of one record in the epoch of CTIDW: it goes to the buffer, and a full buffer to the queue. */
  lemma AppendsOn(g: S.Config, s: State, room: nat, w: nat) returns (t: State)
    requires Here(g, s, room) && D.WorkerIn(s.d, w) && s.d.ws[w].pc.WalAppend? && !s.d.ws[w].pc.begins
    requires s.d.ws[w].cur.Some? && |s.d.ws[w].pc.push| == 1
    ensures Here(g, t, room) && t == s.(d := t.d) && |t.d.ws| == |s.d.ws| && |t.d.ls| == |s.d.ls|
    ensures var x, l := s.d.ws[w], s.d.loggerOf[w]; var b := D.Append(x.cur.value, x.pc.ctid, x.pc.push);
            && t.d == s.d.(ws := s.d.ws[w := t.d.ws[w]], ls := s.d.ls[l := t.d.ls[l]])
            && D.Size(b) == D.Size(x.cur.value) + 1 && t.d.ws[w].pc.WalDone?
            && t.d.ws[w].ctidw == x.ctidw && t.d.ws[w].free == x.free
            && if D.Size(b) + C.MAX_OPE > D.LOG_BUFFER_SIZE
               then t.d.ws[w].cur.None? && t.d.ls[l] == s.d.ls[l].(queue := D.Enq(s.d.ls[l].queue, b))
               else t.d.ws[w].cur == D.Some(b) && t.d.ls[l] == s.d.ls[l]
  {
    var x, l := s.d.ws[w], s.d.loggerOf[w];
    var b := D.Append(x.cur.value, x.pc.ctid, x.pc.push);
    TotalMore(x.cur.value.pushes, x.pc.push);
    var t1 := WR.PoolStep(g, s, room, w);
    assert t1.d.ws[w].cur == D.Some(b) && t1.d.ws[w].free == x.free && t1.d.ws[w].ctidw == x.ctidw;
    assert t1.d == s.d.(ws := s.d.ws[w := t1.d.ws[w]]);
    var t2 := t1;
    if D.Size(b) + C.MAX_OPE > D.LOG_BUFFER_SIZE {
      t2 := WR.PoolStep(g, t1, room, w);
      assert t2.d.ls == s.d.ls[l := s.d.ls[l].(queue := D.Enq(s.d.ls[l].queue, b))];
    } else {
      assert t2.d.ls == s.d.ls[l := s.d.ls[l]];
    }
    assert t2.d.ws[w].pc == D.WalStore(x.pc.ctid, false);
    t := WR.PoolStep(g, t2, room, w);
    assert t.d.ws == s.d.ws[w := t.d.ws[w]];
  }

  lemma EnqLast(q: seq<D.Buffer>, b: D.Buffer, w: nat)
    requires OfFirst(q, w) && b.minEpoch == 1
    ensures D.Enq(q, b) == q + [b]
  {
  }

  /** What the current buffer of b holds is of epoch 1, and one more transaction fits. */
  lemma CurrentFits(g: S.Config, s: State, room: nat, l: nat, b: nat)
    requires Here(g, s, room) && Filling(g, s, l, b) && s.d.ws[b].cur.Some?
    ensures var c := s.d.ws[b].cur.value;
            && c.owner == b && D.Size(c) + C.MAX_OPE <= D.LOG_BUFFER_SIZE
            && (c.minEpoch == 1 || c.minEpoch == D.NO_EPOCH)
  {
    HereReachable(g, s, room);
    assert DI.WorkerOk(s.d.ws[b], b, s.d.ge);
  }

  /** One more record of b. */
  lemma FillsMore(g: S.Config, s: State, room: nat, l: nat, b: nat) returns (t: State)
    requires Here(g, s, room) && room > 2 && Filling(g, s, l, b) && s.d.ws[b].cur.Some?
    ensures Here(g, t, room - 1) && Filling(g, t, l, b) && !Fresh(t, b) && Left(t.d.ws[b]) < Left(s.d.ws[b])
  {
    var t3 := LogsOne(g, s, room, l, b);
    var t4 := WR.Returns(g, t3, room - 1, b);
    t := WR.Installs(g, t4, room - 1, b);
    StillFilling(g, s, t3, t, l, b);
  }

  lemma LogsOne(g: S.Config, s: State, room: nat, l: nat, b: nat) returns (t: State)
    requires Here(g, s, room) && room > 2 && Filling(g, s, l, b) && s.d.ws[b].cur.Some?
    ensures Here(g, t, room - 1) && Others(s, t, b) && b < |t.c.ws| && b < |t.d.ws| && |t.c.table| > 0
    ensures t.c.ws[b].pc == C.Wal && t.c.ws[b].localEpoch == 1 && t.c.ws[b].writeSet == [0] && t.d.ws[b].pc == D.WalDone
    ensures !t.c.ws[b].last.lock && |t.d.ls| == |s.d.ls| && t.d.ls == s.d.ls[l := t.d.ls[l]]
    ensures Filled(s.d.ws[b], t.d.ws[b], s.d.ls[l], t.d.ls[l], b)
  {
    CurrentFits(g, s, room, l, b);
    Served(g, l, b);
    Placed(g, s, room);
    var t1 := WR.LocksTuple(g, s, room, b);
    var t2 := WR.Decides(g, t1, room, b);
    t := LogsIt(g, t1, t2, room - 1, l, b, s.d.ws[b]);
  }

  lemma StillFilling(g: S.Config, s: State, u: State, t: State, l: nat, b: nat)
    requires Filling(g, s, l, b) && s.d.ws[b].cur.Some? && Others(s, t, b) && WR.TupleFree(t.c)
    requires u.d.ls == t.d.ls && |u.d.ws| == |t.d.ws| && t.d.ls == s.d.ls[l := t.d.ls[l]]
    requires WR.Rests(t, b) && t.c.ws[b].localEpoch == 1 && t.d.ws[b] == u.d.ws[b].(pc := D.Free) && t.ts[b] == START
    requires Filled(s.d.ws[b], u.d.ws[b], s.d.ls[l], u.d.ls[l], b)
    ensures Filling(g, t, l, b) && !Fresh(t, b) && Left(t.d.ws[b]) < Left(s.d.ws[b])
  {
    forall v | 0 <= v < |t.c.ws| && v != b ensures Fresh(t, v) { assert Fresh(s, v); }
  }

  /** What logging one record does to b and to its logger. */
  predicate Filled(x: D.LogWorker, x': D.LogWorker, lg: D.Logger, lg': D.Logger, b: nat) {
    && x.cur.Some? && D.Size(x.cur.value) < D.LOG_BUFFER_SIZE && x'.free == x.free
    && x'.ctidw.Valid() && x'.ctidw.epoch == 1
    && lg' == lg.(queue := lg'.queue) && OfFirst(lg'.queue, b)
    && if x'.cur.Some? then D.Size(x'.cur.value) == D.Size(x.cur.value) + 1 && lg'.queue == lg.queue
       else |lg'.queue| == |lg.queue| + 1
  }

  /** The pool's worker x is about to log one record of epoch 1. */
  ghost predicate Logging(t: State, l: nat, b: nat, x: D.LogWorker, q: seq<D.Buffer>) {
    && D.WorkerIn(t.d, b) && t.d.loggerOf[b] == l && t.d.ls[l].queue == q && OfFirst(q, b)
    && x.cur.Some? && x.cur.value.owner == b && D.Size(x.cur.value) + C.MAX_OPE <= D.LOG_BUFFER_SIZE
    && (x.cur.value.minEpoch == 1 || x.cur.value.minEpoch == D.NO_EPOCH)
  }

  /** A later record of the epoch. */
  lemma LogsNext(g: S.Config, t: State, room: nat, l: nat, b: nat, x: D.LogWorker, ctid: TidWord, push: D.Push)
    returns (u: State)
    requires Here(g, t, room) && b < |t.d.ws| && l < |t.d.ls| && Logging(t, l, b, x, t.d.ls[l].queue)
    requires x.ctidw.Valid() && x.ctidw.epoch == ctid.epoch == 1 && |push| == 1
    requires t.d.ws[b] == x.(pc := D.WalAppend(ctid, push, false))
    ensures Here(g, u, room) && Others(t, u, b) && u == t.(d := u.d) && u.d.ws[b].pc == D.WalDone
    ensures |u.d.ls| == |t.d.ls| && u.d.ls == t.d.ls[l := u.d.ls[l]]
    ensures Filled(x, u.d.ws[b], t.d.ls[l], u.d.ls[l], b)
  {
    u := AppendsOn(g, t, room, b);
    var c := D.Append(x.cur.value, ctid, push);
    assert c.minEpoch == 1;
    EnqLast(t.d.ls[l].queue, c, b);
  }

  /** The first record. */
  lemma LogsFirst(g: S.Config, t: State, room: nat, l: nat, b: nat, x: D.LogWorker, ctid: TidWord, push: D.Push)
    returns (u: State)
    requires Here(g, t, room) && b < |t.d.ws| && l < |t.d.ls| && Logging(t, l, b, x, t.d.ls[l].queue)
    requires x == D.InitWorker(b).(pc := x.pc) && ctid.Valid() && ctid.epoch == 1 && |push| == 1
    requires t.d.ws[b] == x.(pc := D.WalPublish(ctid, push, true))
    ensures Here(g, u, room) && Others(t, u, b) && u == t.(d := u.d) && u.d.ws[b].pc == D.WalDone
    ensures |u.d.ls| == |t.d.ls| && u.d.ls == t.d.ls[l := u.d.ls[l]]
    ensures Filled(x, u.d.ws[b], t.d.ls[l], u.d.ls[l], b)
  {
    u := WR.LogsFresh(g, t, room, b);
    WR.SmallAppend(x.cur.value, ctid, push);
  }

  lemma LogsIt(g: S.Config, s: State, t: State, room: nat, l: nat, b: nat, x: D.LogWorker) returns (u: State)
    requires Here(g, t, room) && b < |s.d.ws| && l < |s.d.ls| && s.d.ws[b] == x.(pc := D.Window(1))
    requires b < |s.c.ws| && b < |s.c.wvals| && b < |t.c.ws| && Logging(s, l, b, x, s.d.ls[l].queue)
    requires var ctid := t.c.ws[b].last;
             && ctid.epoch == 1 && ctid.Valid() && D.Enabled(s.d, D.WalBegin(b, ctid, [0], s.c.wvals[b]))
             && t.d == D.WalBeginStep(s.d, b, ctid, [0], s.c.wvals[b])
    requires x == D.InitWorker(b).(pc := x.pc) || (x.ctidw.Valid() && x.ctidw.epoch == 1)
    ensures Here(g, u, room) && Others(t, u, b) && u == t.(d := u.d) && u.d.ws[b].pc == D.WalDone
    ensures |u.d.ls| == |s.d.ls| && u.d.ls == s.d.ls[l := u.d.ls[l]]
    ensures Filled(x, u.d.ws[b], s.d.ls[l], u.d.ls[l], b)
  {
    var ctid := t.c.ws[b].last;
    var push := D.Records(ctid, [0], s.c.wvals[b]);
    if x.ctidw.epoch == 1 {
      assert t.d.ws[b] == x.(pc := D.WalAppend(ctid, push, false));
      u := LogsNext(g, t, room, l, b, x, ctid, push);
    } else {
      assert t.d.ws[b] == x.(pc := D.WalPublish(ctid, push, true));
      u := LogsFirst(g, t, room, l, b, x, ctid, push);
    }
  }

  /** b has filled all its buffers and waits for one. */
  ghost predicate Full(g: S.Config, s: State, l: nat, b: nat) {
    Filling(g, s, l, b) && !Fresh(s, b) && NotReady(s, b)
  }

  lemma {:induction false} Fills(g: S.Config, s: State, room: nat, l: nat, b: nat) returns (t: State)
    requires Here(g, s, room) && Filling(g, s, l, b) && room > Left(s.d.ws[b]) + 2
    requires s.d.ws[b].cur.Some? || !Fresh(s, b)
    ensures Here(g, t, room - Left(s.d.ws[b])) && Full(g, t, l, b)
    decreases Left(s.d.ws[b])
  {
    if s.d.ws[b].cur.Some? {
      var t1 := FillsMore(g, s, room, l, b);
      t := Fills(g, t1, room - 1, l, b);
      LessRoom(g, t, room - 1 - Left(t1.d.ws[b]), room - Left(s.d.ws[b]));
    } else if s.d.ws[b].free != [] {
      var t1 := TakesOne(g, s, room, l, b);
      t := Fills(g, t1, room, l, b);
      LessRoom(g, t, room - Left(t1.d.ws[b]), room - Left(s.d.ws[b]));
    } else {
      t := s;
      LessRoom(g, t, room, room - Left(s.d.ws[b]));
    }
  }

  lemma Takes(g: S.Config, s: State, room: nat, w: nat) returns (t: State)
    requires Here(g, s, room) && D.WorkerIn(s.d, w) && s.d.ws[w].pc.Free? && s.d.ws[w].cur.None? && s.d.ws[w].free != []
    requires w < |s.ts| && Unpaused(s, w)
    ensures Here(g, t, room) && t == s.(d := D.SetW(s.d, w, D.TakeBuffer(s.d.ws[w])))
  {
    t := GoPipe(g, s, room, D.Take(w));
  }

  lemma TakesOne(g: S.Config, s: State, room: nat, l: nat, b: nat) returns (t: State)
    requires Here(g, s, room) && Filling(g, s, l, b) && !Fresh(s, b) && s.d.ws[b].cur.None? && s.d.ws[b].free != []
    ensures Here(g, t, room) && Filling(g, t, l, b) && !Fresh(t, b) && t.d.ws[b].cur.Some?
    ensures Left(t.d.ws[b]) < Left(s.d.ws[b])
  {
    assert D.WorkerIn(s.d, b) by { Placed(g, s, room); }
    var taken := s.d.ws[b].free[|s.d.ws[b].free| - 1];
    assert DI.Clean(taken) by {
      HereReachable(g, s, room);
      assert DI.WorkerOk(s.d.ws[b], b, s.d.ge);
    }
    t := Takes(g, s, room, b);
    assert D.Total([]) == 0 && D.Size(taken) == 0;
    forall v | 0 <= v < |t.c.ws| && v != b ensures Fresh(t, v) { assert Fresh(s, v); }
  }

  /** As many transactions fit into an epoch. */
  const ROOM: nat := TID_LIMIT - 1
  /** At most as many records fit into the buffers of a pool. */
  const FILL: nat := D.BUFFER_NUM * (D.LOG_BUFFER_SIZE + 1)

  lemma FillsAll(g: S.Config, l: nat, b: nat) returns (t: State)
    requires S.ValidConfig(g) && |g.init| > 0 && l < |g.members| && b in g.members[l]
    ensures Here(g, t, ROOM - FILL) && Full(g, t, l, b)
  {
    Starts(g);
    StartsFresh(g);
    Served(g, l, b);
    var s := InitState(g);
    assert D.Total([]) == 0;
    t := Fills(g, s, ROOM, l, b);
    LessRoom(g, t, ROOM - Left(s.d.ws[b]), ROOM - FILL);
  }

  // ---- epochWork while it waits -------------------------------------------------------------

  lemma EwStoreTurns(s: State, w: nat)
    requires Enabled(s, Tx(w, C.Next)) && w < |s.d.ws| && s.c.ws[w].pc.EwStore? && s.d.ws[w].pc.EwLoaded?
    ensures WR.Turned(Apply(s, Tx(w, C.Next)), w, s.c.ws[w].(pc := C.Idle, localEpoch := s.c.ws[w].pc.epoch),
                      s.d.ws[w].(pc := D.EwStored(s.d.ws[w].pc.epoch)), s.ts[w])
  {
  }

  /** The thread is in epochWork. */
  predicate Works(s: State, w: nat) {
    w < |s.ts| && (s.ts[w].place.Work? || s.ts[w].place.WorkLed?)
  }

  lemma CanEpochWork(g: S.Config, s: State, room: nat, w: nat)
    requires Here(g, s, room) && WR.Rests(s, w) && s.d.ws[w].cur.None? && Works(s, w)
    ensures Enabled(s, Tx(w, C.EpochWork))
  {
    HereReachable(g, s, room);
    CanMove(g, s, w);
    assert D.WorkerIn(s.d, w) by { Placed(g, s, room); }
    WorkEnabled(Sys(s), w);
  }

  lemma WorkEnabled(s: S.State, w: nat)
    requires C.InRange(s.c, w) && s.c.ws[w].pc.Idle? && D.WorkerIn(s.d, w) && s.d.ws[w].pc.Free? && s.d.ws[w].cur.None?
    ensures S.Enabled(s, S.Tx(w, C.EpochWork))
  {
  }

  /** A worker that waits for a buffer loads the epoch and raises its CTIDW. */
  lemma EpochWorks(g: S.Config, s: State, room: nat, w: nat) returns (t: State)
    requires Here(g, s, room) && room > 0 && WR.Rests(s, w) && s.d.ws[w].cur.None? && Works(s, w)
    requires s.d.ws[w].ctidw.epoch != s.c.ge
    ensures Here(g, t, room) && Only(s, t, w) && WR.Rests(t, w) && t.c.ws[w].localEpoch == s.c.ge
    ensures t.d.ws[w] == s.d.ws[w].(ctidw := D.EpochTid(s.c.ge))
    ensures t.ts[w] == s.ts[w].(place := Back(s.ts[w].place.pausing))
  {
    CanEpochWork(g, s, room, w);
    WR.CallTurns(s, w, C.EpochWork);
    var t1 := GoLocal(g, s, room, w, C.EpochWork);
    var t2 := Next(g, t1, room, w);
    EwStoreTurns(t1, w);
    assert s.c.ge == s.d.ge && D.WorkerIn(t2.d, w) by { Placed(g, s, room); }
    t := GoPipe(g, t2, room, D.WorkerStep(w));
    OnlyThen(s, t1, t2, w);
    OnlyThen(s, t2, t, w);
  }
}
