/** A run in which a logger takes a worker in its first transaction for idle. CTIDW starts at ~0
    (main.cpp:153), which find_min_epoch skips, so the logger's bound passes the epoch of that
    transaction. It exists for every logger that serves two workers and for every EPOCH_DIFF: worker b
    fills its buffers and raises its CTIDW in epochWork, worker a holds tuple 0 across the clock's tick, and
    all others have read tuple 0, abort, and try again with the same read. */
module BlindRuns {
  import opened TidWords
  import opened WorkerLoops
  import opened SystemRuns
  import opened LoggerRuns
  import opened FullBuffers
  import S = System
  import WR = WorkerRuns
  import C = CommitModel
  import CL = CommitLog
  import D = LogModel
  import DI = LogInv

  // ---- What stays while others move ---------------------------------------------------------

  ghost predicate LogAround(log: seq<C.Entry>, log': seq<C.Entry>, xs: iset<nat>) {
    && |log| <= |log'|
    && (forall j :: 0 <= j < |log| ==>
          log'[j] == log[j] || (log[j].st.Pending? && log[j].worker !in xs && log'[j] == log[j].(st := log'[j].st)))
    && (forall j :: |log| <= j < |log'| ==> log'[j].wset == [])
  }

  /** Nothing about the workers in xs, the tuples and the loggers has changed. */
  ghost predicate Around(s: State, t: State, xs: iset<nat>) {
    && |t.c.ws| == |s.c.ws| && |t.d.ws| == |s.d.ws| && |t.ts| == |s.ts|
    && (forall v :: 0 <= v < |s.c.ws| && v in xs ==> t.c.ws[v] == s.c.ws[v])
    && (forall v :: 0 <= v < |s.d.ws| && v in xs ==> t.d.ws[v] == s.d.ws[v])
    && (forall v :: 0 <= v < |s.ts| && v in xs ==> t.ts[v] == s.ts[v])
    && t.c == s.c.(ws := t.c.ws, log := t.c.log) && t.d == s.d.(ws := t.d.ws)
    && LogAround(s.c.log, t.c.log, xs)
  }

  lemma OnlyAround(s: State, t: State, w: nat, xs: iset<nat>)
    requires Only(s, t, w) && w !in xs
    ensures Around(s, t, xs)
  {
    forall j | 0 <= j < |s.c.log|
      ensures t.c.log[j] == s.c.log[j] ||
              (s.c.log[j].st.Pending? && s.c.log[j].worker !in xs && t.c.log[j] == s.c.log[j].(st := t.c.log[j].st))
    {
      assert CL.Settles(s.c.log[j], t.c.log[j], w);
    }
  }

  lemma AroundThen(s: State, t: State, u: State, xs: iset<nat>, ys: iset<nat>)
    requires Around(s, t, xs) && Around(t, u, ys)
    ensures Around(s, u, xs * ys)
  {
  }

  /** The workers that are not among the first k, or are in xs. */
  ghost function Rest(xs: set<nat>, k: nat): iset<nat> {
    iset v: nat | v in xs || v >= k
  }

  lemma RestShrinks(s: State, t: State, u: State, xs: set<nat>, k: nat)
    requires Around(s, t, Rest(xs, k)) && (u == t || (Only(t, u, k) && k !in xs))
    ensures Around(s, u, Rest(xs, k + 1))
  {
    var ys := Rest(xs, k + 1);
    assert Rest(xs, k) * ys == ys;
    if u != t { OnlyAround(t, u, k, ys); }
    AroundThen(s, t, u, Rest(xs, k), ys);
  }

  // ---- How far a worker is ------------------------------------------------------------------

  /** The thread is about to begin an attempt; plan is what the one before was to do. */
  predicate AtRetry(s: State, v: nat, plan: D.Option<seq<Op>>) {
    v < |s.ts| && (s.ts[v].place.Retry? || s.ts[v].place.Led?) && s.ts[v].ops == [] && s.ts[v].plan == plan
  }

  /** In its first transaction it has read tuple 0. */
  predicate Started(s: State, v: nat) {
    WR.HasRead(s, v) && s.c.ws[v].localEpoch == 0 && s.d.ws[v] == D.InitWorker(v).(pc := D.InTx)
  }

  /** That transaction has aborted in epoch 1 and is to be tried again. */
  predicate Retries(s: State, v: nat) {
    && WR.Rests(s, v) && s.c.ws[v].localEpoch == 1 && s.d.ws[v] == D.InitWorker(v)
    && AtRetry(s, v, D.Some([ReadOp(0)]))
  }

  predicate Aborted(s: State, v: nat) {
    Retries(s, v) && s.ts[v].place.Retry?
  }

  /** It stands in epoch e and has stored no CTIDW. */
  predicate Unseen(s: State, v: nat, e: nat) {
    v < |s.c.ws| && v < |s.d.ws| && s.c.ws[v].localEpoch == e && s.d.ws[v].ctidw == D.ALL_ONES
  }

  /** It waits for a buffer, in epochWork for the second time or later, and its CTIDW is of epoch e. */
  predicate Waiting(s: State, v: nat, e: nat) {
    && WR.Rests(s, v) && s.c.ws[v].localEpoch == e && s.d.ws[v].ctidw == D.EpochTid(e) && s.d.ws[v].cur.None?
    && v < |s.ts| && s.ts[v] == START.(place := Work(false))
  }

  // ---- All workers take a step of the plan --------------------------------------------------

  /** Every worker below k outside xs reads tuple 0. */
  lemma {:induction false} AllRead(g: S.Config, s: State, room: nat, xs: set<nat>, k: nat) returns (t: State)
    requires Here(g, s, room) && room > 0 && k <= |s.c.ws| && WR.TupleFree(s.c)
    requires forall v :: 0 <= v < k && v !in xs ==> Fresh(s, v)
    ensures Here(g, t, room) && Around(s, t, Rest(xs, k))
    ensures forall v :: 0 <= v < k && v !in xs ==> Started(t, v)
  {
    if k == 0 {
      t := s;
    } else {
      var t1 := AllRead(g, s, room, xs, k - 1);
      t := ReadNext(g, s, t1, room, xs, k - 1);
    }
  }

  lemma ReadNext(g: S.Config, s: State, t: State, room: nat, xs: set<nat>, w: nat) returns (u: State)
    requires Here(g, t, room) && room > 0 && Around(s, t, Rest(xs, w))
    requires w < |s.c.ws| && WR.TupleFree(s.c) && (w !in xs ==> Fresh(s, w))
    ensures Here(g, u, room) && Around(s, u, Rest(xs, w + 1)) && (w !in xs ==> Started(u, w))
    ensures forall v: nat :: v != w && Started(t, v) ==> Started(u, v)
  {
    u := t;
    if w !in xs {
      assert Fresh(t, w);
      u := WR.Reads(g, t, room, w);
    }
    RestShrinks(s, t, u, xs, w);
  }

  /** Every worker below k outside xs aborts, since somebody else has locked tuple 0. */
  lemma {:induction false} AllAbort(g: S.Config, s: State, room: nat, xs: set<nat>, k: nat) returns (t: State)
    requires Here(g, s, room) && room > 0 && s.c.ge == 1
    requires k <= |s.c.ws| && |s.c.table| > 0 && s.c.table[0].word.lock
    requires forall v :: 0 <= v < k && v !in xs ==> Started(s, v)
    ensures Here(g, t, room) && Around(s, t, Rest(xs, k))
    ensures forall v :: 0 <= v < k && v !in xs ==> Aborted(t, v)
  {
    if k == 0 {
      t := s;
    } else {
      var t1 := AllAbort(g, s, room, xs, k - 1);
      t := AbortNext(g, s, t1, room, xs, k - 1);
    }
  }

  lemma AbortNext(g: S.Config, s: State, t: State, room: nat, xs: set<nat>, w: nat) returns (u: State)
    requires Here(g, t, room) && room > 0 && s.c.ge == 1 && Around(s, t, Rest(xs, w))
    requires w < |s.c.ws| && |s.c.table| > 0 && s.c.table[0].word.lock && (w !in xs ==> Started(s, w))
    ensures Here(g, u, room) && Around(s, u, Rest(xs, w + 1)) && (w !in xs ==> Aborted(u, w))
    ensures forall v: nat :: v != w && Aborted(t, v) ==> Aborted(u, v)
  {
    u := t;
    if w !in xs {
      var u1 := WR.EntersWindow(g, t, room, w);
      u := WR.Aborts(g, u1, room, w);
      OnlyThen(t, u1, u, w);
    }
    RestShrinks(s, t, u, xs, w);
  }

  /** Every worker below k outside xs tries again in epoch 2 and stops before its validation. */
  lemma {:induction false} AllPark(g: S.Config, s: State, room: nat, xs: set<nat>, k: nat) returns (t: State)
    requires Here(g, s, room) && room > 0 && s.c.ge == 2 && k <= |s.c.ws| && WR.TupleFree(s.c)
    requires forall v :: 0 <= v < k && v !in xs ==> Retries(s, v)
    ensures Here(g, t, room) && Around(s, t, Rest(xs, k))
    ensures forall v :: 0 <= v < k && v !in xs ==> Unseen(t, v, 2)
  {
    if k == 0 {
      t := s;
    } else {
      var t1 := AllPark(g, s, room, xs, k - 1);
      t := ParkNext(g, s, t1, room, xs, k - 1);
    }
  }

  lemma ParkNext(g: S.Config, s: State, t: State, room: nat, xs: set<nat>, w: nat) returns (u: State)
    requires Here(g, t, room) && room > 0 && s.c.ge == 2 && Around(s, t, Rest(xs, w))
    requires w < |s.c.ws| && WR.TupleFree(s.c) && (w !in xs ==> Retries(s, w))
    ensures Here(g, u, room) && Around(s, u, Rest(xs, w + 1)) && (w !in xs ==> Unseen(u, w, 2))
    ensures forall v: nat :: v != w && Unseen(t, v, 2) ==> Unseen(u, v, 2)
  {
    u := t;
    if w !in xs {
      assert Retries(t, w);
      u := WR.ReadsIntoWindow(g, t, room, w);
    }
    RestShrinks(s, t, u, xs, w);
  }

  // ---- The commit that nobody sees ----------------------------------------------------------

  /** The log up to here: entry p is a's only transaction with a write, of epoch 1, and nothing was
      written after it. */
  ghost predicate LastWrite(c: C.State, a: nat, p: nat) {
    && p < |c.log| && c.log[p].worker == a && c.log[p].epoch == 1 && c.log[p].wset == [0]
    && forall j :: p < j < |c.log| ==> c.log[j].wset == []
  }

  lemma AroundLastWrite(s: State, t: State, xs: iset<nat>, a: nat, p: nat)
    requires Around(s, t, xs) && LastWrite(s.c, a, p) && (a in xs || s.c.log[p].st.Committed?)
    ensures LastWrite(t.c, a, p) && t.c.log[p] == s.c.log[p]
  {
  }

  /** Worker a validates in epoch 1, having locked tuple 0 in its first transaction. */
  ghost predicate Holds(s: State, a: nat, p: nat) {
    && WR.InWindow(s, a, 1) && s.c.ws[a].readSet == [] && s.c.ws[a].writeSet == [0] && s.c.ws[a].slot == p
    && s.d.ws[a] == D.InitWorker(a).(pc := D.Window(1)) && LastWrite(s.c, a, p) && s.c.log[p].st.Pending?
    && a < |s.ts| && |s.c.table| > 0
  }

  /** It has committed, and its record lies in its current buffer. */
  ghost predicate Committed(s: State, a: nat, p: nat) {
    && WR.Rests(s, a) && s.c.ws[a].localEpoch == 1 && LastWrite(s.c, a, p) && s.c.log[p].st.Committed?
    && s.d.ws[a].cur.Some? && |s.d.ws[a].hist| == 1 && |s.d.ws[a].hist[0]| == 1 && s.d.ws[a].hist[0][0].tid.epoch == 1
    && a < |s.ts| && s.ts[a] == START && WR.TupleFree(s.c)
  }

  lemma CommitsOne(g: S.Config, s: State, room: nat, a: nat, p: nat) returns (t: State)
    requires Here(g, s, room) && room > 2 && Holds(s, a, p)
    ensures Here(g, t, room - 1) && Others(s, t, a) && t.d.ls == s.d.ls && Committed(t, a, p)
  {
    var t1 := WR.Decides(g, s, room, a);
    KeptLastWrite(s, t1, a, p, a);
    var ctid := t1.c.ws[a].last;
    OnePush(s.d, a, ctid, s.c.wvals[a]);
    var t2 := WR.LogsFresh(g, t1, room - 1, a);
    var t3 := WR.Returns(g, t2, room - 1, a);
    KeptLastWrite(t2, t3, a, p, a);
    t := WR.Installs(g, t3, room - 1, a);
  }

  /** A worker's steps without writes keep it. */
  lemma KeptLastWrite(s: State, t: State, a: nat, p: nat, w: nat)
    requires LogKept(s.c.log, t.c.log, w) && LastWrite(s.c, a, p)
    ensures LastWrite(t.c, a, p) && (s.c.log[p].st.Committed? ==> t.c.log[p] == s.c.log[p])
  {
    assert CL.Settles(s.c.log[p], t.c.log[p], w);
    forall j | p < j < |t.c.log| ensures t.c.log[j].wset == [] {
      if j < |s.c.log| { assert CL.Settles(s.c.log[j], t.c.log[j], w); }
    }
  }

  /** wal receives one record and begins an epoch. */
  lemma OnePush(d: D.State, a: nat, ctid: TidWord, val: C.Value)
    requires a < |d.ws| && d.ws[a] == D.InitWorker(a).(pc := D.Window(1)) && ctid.epoch == 1
    ensures D.WalBeginStep(d, a, ctid, [0], val) ==
            D.SetW(d, a, D.InitWorker(a).(pc := D.WalPublish(ctid, [D.Record(ctid, 0, val)], true)))
  {
    assert D.Records(ctid, [0], val) == [D.Record(ctid, 0, val)];
    assert D.Size(D.CleanBuffer(a, 0, false)) == 0;
  }

  // ---- The plan, up to the bound that passes a by -------------------------------------------

  /** Logger l serves a and b, and a is not the leader. */
  ghost predicate Pair(g: S.Config, l: nat, a: nat, b: nat) {
    && S.ValidConfig(g) && |g.init| > 0
    && l < |g.members| && a in g.members[l] && b in g.members[l] && a != b && a != 0
  }

  /** a validates in epoch 1, b may wait for a buffer, all others try their read again. */
  ghost predicate InFirst(g: S.Config, s: State, a: nat, b: nat, p: nat) {
    && |s.c.ws| == |s.d.ws| == |s.ts| == |g.loggerOf| && a < |g.loggerOf| && Holds(s, a, p)
    && forall v :: 0 <= v < |s.c.ws| && v != a && v != b ==> Retries(s, v)
  }

  /** All others have read tuple 0, and then a has locked it. */
  lemma ReadThenLocked(g: S.Config, s: State, room: nat, l: nat, a: nat, b: nat) returns (t: State, p: nat)
    requires Here(g, s, room) && room > 0 && Pair(g, l, a, b) && Full(g, s, l, b) && a < |s.c.ws|
    ensures Here(g, t, room) && t.c.ge == 1 && Holds(t, a, p) && |t.c.table| > 0 && t.c.table[0].word.lock
    ensures |t.c.ws| == |s.c.ws| && |t.d.ws| == |s.d.ws| && |t.ts| == |s.ts| && t.d == s.d.(ws := t.d.ws)
    ensures forall v :: 0 <= v < |s.c.ws| && v !in {a, b} ==> Started(t, v)
    ensures t.c.ws[b] == s.c.ws[b] && t.d.ws[b] == s.d.ws[b] && t.ts[b] == s.ts[b]
  {
    var n := |s.c.ws|;
    var t1 := AllRead(g, s, room, {a, b}, n);
    assert Fresh(s, a) && a in Rest({a, b}, n) && b in Rest({a, b}, n);
    assert Fresh(t1, a);
    t, p := LocksFirst(g, t1, room, a);
    forall v | 0 <= v < n && v !in {a, b} ensures Started(t, v) { assert Started(t1, v); }
  }

  lemma LocksFirst(g: S.Config, s: State, room: nat, a: nat) returns (t: State, p: nat)
    requires Here(g, s, room) && room > 0 && Fresh(s, a) && WR.TupleFree(s.c) && s.c.ge == 1
    ensures Here(g, t, room) && Others(s, t, a) && t.d.ls == s.d.ls && Holds(t, a, p)
    ensures |t.c.table| > 0 && t.c.table[0].word.lock
  {
    t := WR.LocksTuple(g, s, room, a);
    p := |s.c.log|;
  }

  lemma ReadsAndLocks(g: S.Config, s: State, room: nat, l: nat, a: nat, b: nat) returns (t: State, p: nat)
    requires Here(g, s, room) && room > 0 && Pair(g, l, a, b) && Full(g, s, l, b)
    ensures Here(g, t, room) && t.c.ge == 1 && InFirst(g, t, a, b, p)
    ensures forall v :: 0 <= v < |t.ts| && v != a && v != b ==> t.ts[v].place.Retry?
    ensures b < |g.loggerOf| && t.c.ws[b] == s.c.ws[b] && t.d == s.d.(ws := t.d.ws) && t.d.ws[b] == s.d.ws[b]
    ensures t.ts[b] == s.ts[b]
  {
    Served(g, l, a);
    Served(g, l, b);
    var n := |s.c.ws|;
    var t1;
    t1, p := ReadThenLocked(g, s, room, l, a, b);
    t := AllAbort(g, t1, room, {a, b}, n);
    assert a in Rest({a, b}, n) && b in Rest({a, b}, n);
    AroundLastWrite(t1, t, Rest({a, b}, n), a, p);
    forall v | 0 <= v < n && v !in {a, b} ensures Retries(t, v) && t.ts[v].place.Retry? { assert Aborted(t, v); }
  }

  /** Worker a loads epoch 1 and stops; the others abort in epoch 1; the clock advances, and b follows. */
  lemma WaitsInFirst(g: S.Config, s: State, room: nat, l: nat, a: nat, b: nat) returns (t: State, p: nat)
    requires Here(g, s, room) && room > 0 && Pair(g, l, a, b) && Full(g, s, l, b)
    ensures Here(g, t, room) && t.c.ge == 2 && InFirst(g, t, a, b, p) && Waiting(t, b, 2)
    ensures t.d == s.d.(ws := t.d.ws, ge := 2) && b < |s.d.ws| && t.d.ws[b] == s.d.ws[b].(ctidw := D.EpochTid(2))
  {
    var t1;
    t1, p := ReadsAndLocks(g, s, room, l, a, b);
    var t2 := FindsNone(g, t1, room, b);
    assert 0 == b || Retries(t1, 0);
    forall v | 1 <= v < |t2.c.ws| ensures t2.c.ws[v].localEpoch == 1 { assert v == a || v == b || Retries(t1, v); }
    var t3 := Ticks(g, t2, room);
    assert InFirst(g, t3, a, b, p) by {
      forall v | 0 <= v < |t3.c.ws| && v != a && v != b ensures Retries(t3, v) { assert Retries(t1, v); }
    }
    t := WaitsOn(g, t3, room, a, b, p);
  }

  /** b goes around the loop that waits for a buffer. */
  lemma WaitsOn(g: S.Config, s: State, room: nat, a: nat, b: nat, p: nat) returns (t: State)
    requires Here(g, s, room) && room > 0 && s.c.ge == 2 && InFirst(g, s, a, b, p) && a != b
    requires WR.Rests(s, b) && NotReady(s, b) && s.d.ws[b].ctidw.epoch != 2 && b < |s.ts|
    requires s.ts[b] == START.(place := Work(false)) || s.ts[b] == START.(place := WorkLed(false))
    ensures Here(g, t, room) && t.c.ge == 2 && InFirst(g, t, a, b, p) && Waiting(t, b, 2)
    ensures t.d == s.d.(ws := t.d.ws) && t.d.ws[b] == s.d.ws[b].(ctidw := D.EpochTid(2))
  {
    var t1 := EpochWorks(g, s, room, b);
    t := FindsNone(g, t1, room, b);
    OnlyAround(s, t1, b, iset{a});
    AroundLastWrite(s, t1, iset{a}, a, p);
    forall v | 0 <= v < |t.c.ws| && v != a && v != b ensures Retries(t, v) { assert Retries(s, v); }
  }

  /** The loggers are as they were at the start, save that logger l and the first k have bound 1, and the
      files have blocks, but none of a. */
  ghost predicate BoundsOne(g: S.Config, s: State, l: nat, a: nat, k: nat) {
    |s.d.ls| == |g.members| && forall j :: 0 <= j < |g.members| ==> BoundOne(g, s, l, a, k, j)
  }

  ghost predicate BoundOne(g: S.Config, s: State, l: nat, a: nat, k: nat, j: nat) {
    && j < |g.members| && j < |s.d.ls|
    && var lg := s.d.ls[j];
    && lg == D.InitLogger(g.members[j]).(durable := if j == l || j < k then 1 else 0, blind := lg.blind,
                 file := lg.file, synced := lg.synced)
    && forall i :: 0 <= i < |lg.file| ==> lg.file[i].owner != a
  }

  /** The bound of logger l is 1, although a validates in epoch 1. */
  ghost predicate Passing(g: S.Config, s: State, l: nat, a: nat, b: nat, p: nat) {
    && Pair(g, l, a, b) && InFirst(g, s, a, b, p) && Waiting(s, b, 2) && s.c.ge == 2
    && s.d.durable == 0 && BoundsOne(g, s, l, a, 0)
  }

  /** a has committed in epoch 1 and is in no file, and yet the bound of its logger l is 1. */
  ghost predicate PassedBy(g: S.Config, s: State, l: nat, a: nat, b: nat, p: nat) {
    && Pair(g, l, a, b) && Committed(s, a, p) && Waiting(s, b, 2) && s.c.ge == 2
    && |s.c.ws| == |s.d.ws| == |s.ts| == |g.loggerOf|
    && (forall v :: 0 <= v < |s.c.ws| && v != a && v != b ==> Retries(s, v))
    && s.d.durable == 0 && BoundsOne(g, s, l, a, 0)
  }

  /** Of the workers of logger l only b may have stored a CTIDW, of epoch e. */
  lemma OneSeen(g: S.Config, s: State, l: nat, b: nat, e: nat)
    requires S.ValidConfig(g) && l < |g.members| == |s.d.ls| && s.d.ls[l].members == g.members[l] && 1 <= e < 4
    requires |s.d.ws| == |g.loggerOf| && b < |s.d.ws| && CtidwAt(s.d.ws[b].ctidw, e)
    requires forall v :: 0 <= v < |s.d.ws| && v != b && v in g.members[l] ==> s.d.ws[v].ctidw == D.ALL_ONES
    ensures AtEpoch(s.d, l, e)
  {
    forall i | 0 <= i < |s.d.ls[l].members|
      ensures s.d.ls[l].members[i] < |s.d.ws| && CtidwAt(s.d.ws[s.d.ls[l].members[i]].ctidw, e)
    {
      Served(g, l, g.members[l][i]);
    }
  }

  /** The logger sees only b. */
  lemma SeesOnly(g: S.Config, s: State, l: nat, a: nat, b: nat, p: nat)
    requires Pair(g, l, a, b) && InFirst(g, s, a, b, p) && Waiting(s, b, 2)
    requires |s.d.ls| == |g.members| && s.d.ls[l].members == g.members[l]
    ensures AtEpoch(s.d, l, 2) && DI.Real(s.d.ws[b].ctidw)
    ensures forall v :: 0 <= v < |s.d.ws| && v != b ==> s.d.ws[v].ctidw == D.ALL_ONES
  {
    forall v | 0 <= v < |s.d.ws| && v != b ensures s.d.ws[v].ctidw == D.ALL_ONES { assert v == a || Retries(s, v); }
    OneSeen(g, s, l, b, 2);
  }

  /** It writes out b's buffers, finds its queue empty, and advances its bound. */
  lemma Passes(g: S.Config, l: nat, a: nat, b: nat) returns (s: State, p: nat)
    requires Pair(g, l, a, b)
    ensures Here(g, s, ROOM - FILL) && Passing(g, s, l, a, b, p)
  {
    var room := ROOM - FILL;
    Served(g, l, a);
    Served(g, l, b);
    var s1 := FillsAll(g, l, b);
    var s2;
    s2, p := WaitsInFirst(g, s1, room, l, a, b);
    SeesOnly(g, s2, l, a, b, p);
    var s3 := Drains(g, s2, room, l, 2, b);
    StillInFirst(g, s2, s3, a, b, p);
    SeesOnly(g, s3, l, a, b, p);
    s := Advances(g, s3, room, l, 2, b, 0);
    StillInFirst(g, s3, s, a, b, p);
    forall j | 0 <= j < |g.members| ensures BoundOne(g, s, l, a, 0, j) {}
  }

  /** A step of the logger leaves the workers' phases alone. */
  lemma StillInFirst(g: S.Config, s: State, t: State, a: nat, b: nat, p: nat)
    requires InFirst(g, s, a, b, p) && Waiting(s, b, 2) && a != b && t == s.(d := t.d) && |t.d.ws| == |s.d.ws|
    requires b < |s.d.ws| && t.d.ws == s.d.ws[b := t.d.ws[b]]
    requires t.d.ws[b] == s.d.ws[b].(free := t.d.ws[b].free)
    ensures InFirst(g, t, a, b, p) && Waiting(t, b, 2)
  {
    forall v | 0 <= v < |s.c.ws| && v != a && v != b ensures Retries(t, v) { assert Retries(s, v); }
  }

  lemma PassesBy(g: S.Config, l: nat, a: nat, b: nat) returns (s: State, p: nat)
    requires Pair(g, l, a, b)
    ensures Here(g, s, ROOM - FILL - 1) && PassedBy(g, s, l, a, b, p)
  {
    var s1;
    s1, p := Passes(g, l, a, b);
    s := CommitsOne(g, s1, ROOM - FILL, a, p);
    forall v | 0 <= v < |s.c.ws| && v != a && v != b ensures Retries(s, v) { assert Retries(s1, v); }
    forall j | 0 <= j < |g.members| ensures BoundOne(g, s, l, a, 0, j) { assert BoundOne(g, s1, l, a, 0, j); }
  }
}
