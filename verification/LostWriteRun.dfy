/** Runs after which a restart finds the wrong table: a committed write of epoch 1 is in no file while
    DurableEpoch is 1. With two loggers another logger's fold makes the epoch durable. */
module LostWrites {
  import opened TidWords
  import opened WorkerLoops
  import opened SystemRuns
  import opened LoggerRuns
  import opened FullBuffers
  import opened BlindRuns
  import S = System
  import WR = WorkerRuns
  import R = Recovery
  import C = CommitModel
  import CL = CommitLog
  import CT = CommitTheorems
  import D = LogModel

  // ---- What a restart would find ------------------------------------------------------------

  /** The last write of epoch 1, by a, is committed; no file has a block of a; DurableEpoch is 1. */
  ghost predicate Lost(s: S.State, a: nat, p: nat) {
    && LastWrite(s.c, a, p) && s.c.log[p].st.Committed? && s.d.durable == 1
    && forall l, i :: 0 <= l < |s.d.ls| && 0 <= i < |s.d.ls[l].file| ==> s.d.ls[l].file[i].owner != a
  }

  /** The value that a writes is nobody else's. */
  ghost predicate Telling(g: S.Config, a: nat) {
    && a < |g.wvals| && |g.init| > 0 && g.init[0] != g.wvals[a]
    && forall v :: 0 <= v < |g.wvals| && v != a ==> g.wvals[v] != g.wvals[a]
  }

  /** Then replay misses the write. */
  lemma LostIsWrong(g: S.Config, s: S.State, a: nat, p: nat)
    requires S.Reachable(g, s) && Lost(s, a, p) && Telling(g, a)
    ensures var n := CT.PrefixLength(s.c.log, 1);
            R.Replay(s.c.init, R.DiskRecords(s.d.ls), 1) != CT.Serial(s.c.init, s.c.log, n)
  {
    S.ReachableInv(g, s);
    var n := CT.PrefixLength(s.c.log, 1);
    if R.Replay(s.c.init, R.DiskRecords(s.d.ls), 1) == CT.Serial(s.c.init, s.c.log, n) {
      R.EpochsInOrder(s.c, 1);
      LastOfPrefix(s, a, p, n);
      ValuesKnown(g, s);
      assert R.Replay(s.c.init, R.DiskRecords(s.d.ls), 1)[0] == s.c.wvals[a];
      R.NewestIsNewest(R.DiskRecords(s.d.ls), 1, 0);
      if R.Newest(R.DiskRecords(s.d.ls), 1, 0).Some? {
        var r := R.Newest(R.DiskRecords(s.d.ls), 1, 0).value;
        var l, b, j := R.DiskWriter(s, r);
      }
    }
  }

  lemma LastOfPrefix(s: S.State, a: nat, p: nat, n: nat)
    requires S.Inv(s) && LastWrite(s.c, a, p) && s.c.log[p].st.Committed? && |s.c.init| > 0
    requires n == CT.PrefixLength(s.c.log, 1) && forall j :: 0 <= j < |s.c.log| ==> (s.c.log[j].epoch <= 1 <==> j < n)
    ensures CT.Serial(s.c.init, s.c.log, n)[0] == s.c.log[p].val
  {
    CL.LastWriterIsLast(s.c.log, n, 0, p);
    var q := CL.LastWriter(s.c.log, n, 0);
    assert q == p;
    CT.SerialValue(s.c.init, s.c.log, n, 0);
  }

  lemma ValuesKnown(g: S.Config, s: S.State)
    requires S.Reachable(g, s)
    ensures CT.ValuesOk(s.c)
  {
    S.PartsReachable(g, s);
    var trace :| C.Reaches(C.InitState(g.init, g.wvals), trace, s.c);
    CT.RunKeepsValues(C.InitState(g.init, g.wvals), trace, s.c);
  }

  // ---- All workers go on in epoch 2 ---------------------------------------------------------

  /** It rests in epoch 2, in which it has committed without writes. */
  predicate Second(s: State, v: nat) {
    && WR.Rests(s, v) && s.c.ws[v].localEpoch == 2 && AtRetry(s, v, D.None)
    && s.d.ws[v].ctidw.Valid() && s.d.ws[v].ctidw.epoch == 2
    && s.d.ws[v].cur.Some? && s.d.ws[v].cur.value.used && s.d.ws[v].cur.value.owner == v
    && s.d.ws[v].cur.value.minEpoch == 2 && s.d.ws[v].free != []
  }

  /** The worker that stands for its logger: the leader if it is there, otherwise the first. */
  function Deputy(members: seq<nat>): nat
    requires members != []
  {
    if 0 in members then 0 else members[0]
  }

  /** v stands for one of the first k loggers, other than l. */
  predicate StandsFor(g: S.Config, l: nat, k: nat, v: nat) {
    && v < |g.loggerOf| && g.loggerOf[v] != l && g.loggerOf[v] < k && g.loggerOf[v] < |g.members|
    && g.members[g.loggerOf[v]] != [] && Deputy(g.members[g.loggerOf[v]]) == v
  }

  /** a has committed in epoch 1, b waits for a buffer, the leader and those who stand for the first k loggers
      have committed their second attempt in epoch 2, and the others have yet to try it. */
  ghost predicate Trying(g: S.Config, s: State, l: nat, a: nat, b: nat, p: nat, k: nat) {
    && Pair(g, l, a, b) && Committed(s, a, p) && Waiting(s, b, 2) && s.c.ge == 2
    && |s.c.ws| == |s.d.ws| == |s.ts| == |g.loggerOf| && (b != 0 ==> s.ts[0] == START)
    && forall v :: 0 <= v < |s.c.ws| && v != a && v != b ==>
         if v == 0 || StandsFor(g, l, k, v) then Second(s, v) else Retries(s, v)
  }

  /** A worker's second attempt succeeds, now that a has installed. */
  lemma TriesAgain(g: S.Config, s: State, room: nat, v: nat) returns (t: State)
    requires Here(g, s, room) && room > 1 && Retries(s, v) && WR.TupleFree(s.c) && s.c.ge == 2
    ensures Here(g, t, room - 1) && Only(s, t, v) && Second(t, v) && t.ts[v] == START
  {
    t := WR.ReadTx(g, s, room, v);
  }

  /** Others' states and the last write stay. */
  lemma OnlyCommitted(s: State, t: State, a: nat, p: nat, v: nat)
    requires Only(s, t, v) && Committed(s, a, p) && v != a
    ensures Committed(t, a, p)
  {
    KeptLastWrite(s, t, a, p, v);
  }

  /** The leader first, unless it is b. */
  lemma LeaderTries(g: S.Config, s: State, room: nat, l: nat, a: nat, b: nat, p: nat) returns (t: State)
    requires Here(g, s, room) && room > 1 && Pair(g, l, a, b) && Committed(s, a, p) && Waiting(s, b, 2)
    requires s.c.ge == 2 && |s.c.ws| == |s.d.ws| == |s.ts| == |g.loggerOf|
    requires forall v :: 0 <= v < |s.c.ws| && v != a && v != b ==> Retries(s, v)
    ensures Here(g, t, room - 1) && Trying(g, t, l, a, b, p, 0) && t.d.ls == s.d.ls && t.d.durable == s.d.durable
  {
    Served(g, l, a);
    if b == 0 {
      LessRoom(g, s, room, room - 1);
      t := s;
    } else {
      assert Retries(s, 0);
      t := TriesAgain(g, s, room, 0);
      OnlyCommitted(s, t, a, p, 0);
    }
    forall v | 0 <= v < |s.c.ws| && v != a && v != b
      ensures if v == 0 || StandsFor(g, l, 0, v) then Second(t, v) else Retries(t, v)
    {
      assert Retries(s, v);
    }
  }

  lemma DeputyOf(g: S.Config, l: nat, k: nat)
    requires S.ValidConfig(g) && k < |g.members| && k != l
    ensures g.members[k] != [] &&
            var y := Deputy(g.members[k]); y < |g.loggerOf| && g.loggerOf[y] == k && y in g.members[k]
    ensures forall v :: 0 <= v < |g.loggerOf| ==>
              (StandsFor(g, l, k + 1, v) <==> StandsFor(g, l, k, v) || v == Deputy(g.members[k]))
  {
    Served(g, k, Deputy(g.members[k]));
  }

  /** The worker that stands for logger k tries again, if it has not yet. */
  lemma DeputyTries(g: S.Config, s: State, room: nat, l: nat, a: nat, b: nat, p: nat, k: nat) returns (t: State)
    requires Here(g, s, room) && room > 1 && Trying(g, s, l, a, b, p, k) && k < |g.members| && k != l
    ensures Here(g, t, room - 1) && Trying(g, t, l, a, b, p, k + 1) && g.members[k] != []
    ensures Second(t, Deputy(g.members[k])) && t.d.ls == s.d.ls && t.d.durable == s.d.durable
  {
    DeputyOf(g, l, k);
    Served(g, l, a);
    Served(g, l, b);
    var y := Deputy(g.members[k]);
    assert if y == 0 then Second(s, y) else Retries(s, y);
    if y == 0 {
      LessRoom(g, s, room, room - 1);
      t := s;
    } else {
      t := TriesAgain(g, s, room, y);
      OnlyCommitted(s, t, a, p, y);
    }
    var k1 := k + 1;
    forall v | 0 <= v < |s.c.ws| && v != a && v != b
      ensures if v == 0 || StandsFor(g, l, k1, v) then Second(t, v) else Retries(t, v)
    {
      assert if v == 0 || StandsFor(g, l, k, v) then Second(s, v) else Retries(s, v);
    }
  }

  /** All workers have the current epoch, 2 or after the tick 3, and the leader may call leaderWork. */
  ghost predicate CaughtUp(g: S.Config, s: State, l: nat, a: nat, b: nat, p: nat, ge: nat) {
    && Pair(g, l, a, b) && s.c.ge == ge && |s.c.ws| == |s.d.ws| == |s.ts| == |g.loggerOf|
    && LastWrite(s.c, a, p) && s.c.log[p].st.Committed? && WR.TupleFree(s.c)
    && (forall v :: 1 <= v < |s.c.ws| ==> s.c.ws[v].localEpoch == 2)
    && WR.Rests(s, b) && s.d.ws[b].ctidw == D.EpochTid(2) && s.d.ws[b].cur.None? && Works(s, b)
    && (forall v :: 0 <= v < |s.c.ws| && StandsFor(g, l, |g.members|, v) ==> Second(s, v))
    && (forall v :: 0 <= v < |s.c.ws| && g.loggerOf[v] != l && !StandsFor(g, l, |g.members|, v) ==>
          s.d.ws[v].ctidw == D.ALL_ONES)
  }

  ghost function Moved(g: S.Config, l: nat, a: nat, b: nat): set<nat> {
    set v | 0 <= v < |g.loggerOf| && (v == a || v == b || v == 0 || StandsFor(g, l, |g.members|, v))
  }

  /** All others stop in their second attempt, and a in a new transaction; the clock moves on. */
  lemma AllStand(g: S.Config, s: State, room: nat, l: nat, a: nat, b: nat, p: nat) returns (t: State)
    requires Here(g, s, room) && room > 0 && Trying(g, s, l, a, b, p, |g.members|)
    ensures Here(g, t, room) && CaughtUp(g, t, l, a, b, p, 3) && t.d.ls == s.d.ls && t.d.durable == s.d.durable
  {
    Served(g, l, a);
    Served(g, l, b);
    var xs, n := Moved(g, l, a, b), |s.c.ws|;
    var t1 := WR.ReadsIntoWindow(g, s, room, a);
    KeptLastWrite(s, t1, a, p, a);
    forall v | 0 <= v < n && v !in xs ensures Retries(t1, v) { assert Retries(s, v); }
    var t2 := AllPark(g, t1, room, xs, n);
    AroundLastWrite(t1, t2, Rest(xs, n), a, p);
    StandNow(g, s, t1, t2, l, a, b, p);
    t := Ticks(g, t2, room);
    forall v | 0 <= v < n && StandsFor(g, l, |g.members|, v) ensures Second(t, v) { assert Second(t2, v); }
  }

  lemma StandNow(g: S.Config, s: State, t1: State, t: State, l: nat, a: nat, b: nat, p: nat)
    requires Trying(g, s, l, a, b, p, |g.members|) && Only(s, t1, a) && a < |t1.c.ws| && t1.c.ws[a].localEpoch == 2
    requires Around(t1, t, Rest(Moved(g, l, a, b), |s.c.ws|)) && LastWrite(t.c, a, p) && t.c.log[p].st.Committed?
    requires forall v :: 0 <= v < |s.c.ws| && v !in Moved(g, l, a, b) ==> Unseen(t, v, 2)
    ensures CaughtUp(g, t, l, a, b, p, 2) && MayLead(t)
  {
    Served(g, l, a);
    Served(g, l, b);
    var m, n := |g.members|, |g.loggerOf|;
    forall v | 1 <= v < n ensures t.c.ws[v].localEpoch == 2 {
      if v in Moved(g, l, a, b) { assert v == a || v == b || Second(s, v); } else { assert Unseen(t, v, 2); }
    }
    forall v | 0 <= v < n && StandsFor(g, l, m, v) ensures Second(t, v) { assert Second(s, v); }
    forall v | 0 <= v < n && g.loggerOf[v] != l && !StandsFor(g, l, m, v) ensures t.d.ws[v].ctidw == D.ALL_ONES {
      if v == 0 { LeaderStands(g, l); } else { assert Unseen(t, v, 2); }
    }
    assert b == 0 || (Second(s, 0) && s.ts[0].place.Retry?);
  }

  /** The leader stands for its logger. */
  lemma LeaderStands(g: S.Config, l: nat)
    requires S.ValidConfig(g) && |g.loggerOf| > 0 && g.loggerOf[0] != l
    ensures StandsFor(g, l, |g.members|, 0)
  {
    assert 0 in g.members[g.loggerOf[0]];
  }

  // ---- Every other logger reaches bound 1 ---------------------------------------------------

  ghost predicate Spread(g: S.Config, s: State, l: nat, a: nat, b: nat, p: nat, k: nat) {
    Trying(g, s, l, a, b, p, k) && s.d.durable == 0 && BoundsOne(g, s, l, a, k)
  }

  lemma {:induction false} EachAdvances(g: S.Config, s: State, room: nat, l: nat, a: nat, b: nat, p: nat, k: nat)
    returns (t: State)
    requires Here(g, s, room) && Spread(g, s, l, a, b, p, 0) && k <= |g.members| && room > k + 1
    ensures Here(g, t, room - k) && Spread(g, t, l, a, b, p, k)
  {
    if k == 0 {
      t := s;
    } else {
      var t1 := EachAdvances(g, s, room, l, a, b, p, k - 1);
      t := MaybeAdvances(g, t1, room - (k - 1), l, a, b, p, k - 1);
    }
  }

  lemma MaybeAdvances(g: S.Config, s: State, room: nat, l: nat, a: nat, b: nat, p: nat, k: nat) returns (t: State)
    requires Here(g, s, room) && room > 1 && Spread(g, s, l, a, b, p, k) && k < |g.members|
    ensures Here(g, t, room - 1) && Spread(g, t, l, a, b, p, k + 1)
  {
    if k == l {
      LessRoom(g, s, room, room - 1);
      t := s;
      SpreadSame(g, t, l, a, b, p);
    } else {
      t := OneAdvances(g, s, room, l, a, b, p, k);
    }
  }

  lemma SpreadSame(g: S.Config, s: State, l: nat, a: nat, b: nat, p: nat)
    requires Spread(g, s, l, a, b, p, l)
    ensures Spread(g, s, l, a, b, p, l + 1)
  {
    var k := l + 1;
    forall v | 0 <= v < |s.c.ws| && v != a && v != b
      ensures if v == 0 || StandsFor(g, l, k, v) then Second(s, v) else Retries(s, v)
    {
      assert StandsFor(g, l, k, v) <==> StandsFor(g, l, l, v);
    }
    forall j | 0 <= j < |g.members| ensures BoundOne(g, s, l, a, k, j) { assert BoundOne(g, s, l, a, l, j); }
  }

  lemma OneAdvances(g: S.Config, s: State, room: nat, l: nat, a: nat, b: nat, p: nat, k: nat) returns (t: State)
    requires Here(g, s, room) && room > 1 && Spread(g, s, l, a, b, p, k) && k < |g.members| && k != l
    ensures Here(g, t, room - 1) && Spread(g, t, l, a, b, p, k + 1)
  {
    var t1 := DeputyTries(g, s, room, l, a, b, p, k);
    DeputyOf(g, l, k);
    var y := Deputy(g.members[k]);
    assert BoundOne(g, s, l, a, k, k);
    SeesDeputy(g, t1, l, a, b, p, k);
    t := Advances(g, t1, room - 1, k, 2, y, 0);
    var k1 := k + 1;
    forall v | 0 <= v < |s.c.ws| && v != a && v != b
      ensures if v == 0 || StandsFor(g, l, k1, v) then Second(t, v) else Retries(t, v)
    {
      assert if v == 0 || StandsFor(g, l, k1, v) then Second(t1, v) else Retries(t1, v);
    }
    forall j | 0 <= j < |g.members| ensures BoundOne(g, t, l, a, k1, j) { assert BoundOne(g, s, l, a, k, j); }
  }

  lemma SeesDeputy(g: S.Config, s: State, l: nat, a: nat, b: nat, p: nat, k: nat)
    requires Trying(g, s, l, a, b, p, k + 1) && k < |g.members| == |s.d.ls| && k != l
    requires s.d.ls[k].members == g.members[k] && g.members[k] != [] && Second(s, Deputy(g.members[k]))
    ensures AtEpoch(s.d, k, 2)
  {
    DeputyOf(g, l, k);
    Served(g, l, a);
    Served(g, l, b);
    var y, k1 := Deputy(g.members[k]), k + 1;
    forall v | 0 <= v < |s.d.ws| && v != y && v in g.members[k] ensures s.d.ws[v].ctidw == D.ALL_ONES {
      Served(g, k, v);
      assert v != 0 && !StandsFor(g, l, k1, v);
      assert Retries(s, v);
    }
    OneSeen(g, s, k, y, 2);
  }

  // ---- Another logger folds -----------------------------------------------------------------

  /** The worker that stands for logger k commits in epoch 3, and its logger advances once more. */
  lemma OtherFolds(g: S.Config, s: State, room: nat, l: nat, a: nat, b: nat, p: nat, k: nat) returns (t: State)
    requires Here(g, s, room) && room > 1 && CaughtUp(g, s, l, a, b, p, 3) && k < |g.members| && k != l
    requires s.d.durable == 0 && BoundsOne(g, s, l, a, |g.members|)
    ensures Here(g, t, room - 1) && Lost(Sys(t), a, p)
  {
    DeputyOf(g, l, k);
    Served(g, l, a);
    var y := Deputy(g.members[k]);
    assert StandsFor(g, l, |g.members|, y) && Second(s, y);
    Placed(g, s, room);
    assert BoundOne(g, s, l, a, |g.members|, k);
    var t1 := WR.ReadTxAfresh(g, s, room, y);
    KeptLastWrite(s, t1, a, p, y);
    var used := s.d.ws[y].cur.value;
    assert t1.d.ls[k].queue == [used] by { assert D.Enq([], used) == [] + [used]; }
    SeenAtThree(g, s, t1, l, a, b, p, k);
    var t2 := Drains(g, t1, room - 1, k, 3, y);
    assert AtEpoch(t2.d, k, 3) by { AtEpochSame(t1.d, t2.d, k, 3); }
    forall j | 0 <= j < |t2.d.ls| ensures 1 <= t2.d.ls[j].durable { assert BoundOne(g, s, l, a, |g.members|, j); }
    t := Advances(g, t2, room - 1, k, 3, y, 1);
    forall j, i | 0 <= j < |t.d.ls| && 0 <= i < |t.d.ls[j].file| ensures t.d.ls[j].file[i].owner != a {
      assert BoundOne(g, s, l, a, |g.members|, j);
    }
  }

  lemma AtEpochSame(d: D.State, d': D.State, l: nat, e: nat)
    requires AtEpoch(d, l, e) && |d'.ls| == |d.ls| && d'.ls[l].members == d.ls[l].members && |d'.ws| == |d.ws|
    requires forall v :: 0 <= v < |d.ws| ==> d'.ws[v].ctidw == d.ws[v].ctidw
    ensures AtEpoch(d', l, e)
  {
    forall i | 0 <= i < |d'.ls[l].members|
      ensures d'.ls[l].members[i] < |d'.ws| && CtidwAt(d'.ws[d'.ls[l].members[i]].ctidw, e)
    {
      assert d.ls[l].members[i] < |d.ws| && CtidwAt(d.ws[d.ls[l].members[i]].ctidw, e);
    }
  }

  lemma SeenAtThree(g: S.Config, s: State, t: State, l: nat, a: nat, b: nat, p: nat, k: nat)
    requires CaughtUp(g, s, l, a, b, p, 3) && k < |g.members| && k != l && g.members[k] != []
    requires Others(s, t, Deputy(g.members[k])) && |t.d.ls| == |g.members| && t.d.ls[k].members == g.members[k]
    requires Deputy(g.members[k]) < |t.d.ws| && CtidwAt(t.d.ws[Deputy(g.members[k])].ctidw, 3)
    ensures AtEpoch(t.d, k, 3)
  {
    DeputyOf(g, l, k);
    var y := Deputy(g.members[k]);
    forall v | 0 <= v < |t.d.ws| && v != y && v in g.members[k] ensures t.d.ws[v].ctidw == D.ALL_ONES {
      Served(g, k, v);
      assert g.loggerOf[v] != l && !StandsFor(g, l, |g.members|, v);
    }
    OneSeen(g, t, k, y, 3);
  }

  /** With two loggers or more, one of which serves two workers. */
  lemma OtherLoggerLoses(g: S.Config, l: nat, a: nat, b: nat, k: nat) returns (s: S.State, p: nat)
    requires Pair(g, l, a, b) && k < |g.members| && k != l && |g.members| + FILL + 5 < TID_LIMIT
    ensures CodedReachable(g, s) && Lost(s, a, p)
  {
    var m, room := |g.members|, ROOM - FILL - 2;
    var s1;
    s1, p := PassesBy(g, l, a, b);
    var s2 := LeaderTries(g, s1, room + 1, l, a, b, p);
    forall j | 0 <= j < m ensures BoundOne(g, s2, l, a, 0, j) { assert BoundOne(g, s1, l, a, 0, j); }
    var s3 := EachAdvances(g, s2, room, l, a, b, p, m);
    var s4 := AllStand(g, s3, room - m, l, a, b, p);
    forall j | 0 <= j < m ensures BoundOne(g, s4, l, a, m, j) { assert BoundOne(g, s3, l, a, m, j); }
    var t := OtherFolds(g, s4, room - m, l, a, b, p, k);
    HereReachable(g, t, room - m - 1);
    s := Sys(t);
  }
}
