/** With one logger the durable epoch can pass a committed write, too, also when EPOCH_DIFF is 0. Worker b,
    which waits for a buffer, is the last that the logger asks, and epochWork raises its CTIDW twice. */
module LoneLoggers {
  import opened TidWords
  import opened WorkerLoops
  import opened SystemRuns
  import opened LoggerRuns
  import opened FullBuffers
  import opened BlindRuns
  import opened LostWrites
  import opened LogRuns
  import L = Loggers
  import S = System
  import WR = WorkerRuns
  import C = CommitModel
  import D = LogModel
  import DI = LogInv

  /** One logger, which asks b last; a is not the leader. */
  ghost predicate Lone(g: S.Config, a: nat, b: nat) {
    Pair(g, 0, a, b) && |g.members| == 1 && b == g.members[0][|g.members[0]| - 1]
  }

  // ---- The logger asks all but b ------------------------------------------------------------

  /** Of the first k workers of logger l none has stored a CTIDW. */
  lemma {:induction false} ScansNothing(s0: D.State, d: D.State, l: nat, k: nat) returns (skipped: bool)
    requires L.Fit(d, l) && k <= |d.ls[l].members|
    requires forall i :: 0 <= i < k ==> d.ws[d.ls[l].members[i]].ctidw == D.ALL_ONES
    requires Ran(s0, LoggerThread(l), D.To(d, l, D.ScanWorkers(true, 0, D.ALL_ONES, false)))
    ensures Ran(s0, LoggerThread(l), D.To(d, l, D.ScanWorkers(true, k, D.ALL_ONES, skipped)))
  {
    if k == 0 {
      skipped := false;
    } else {
      var before := ScansNothing(s0, d, l, k - 1);
      L.ScanMore(s0, d, l, D.ScanWorkers(true, k - 1, D.ALL_ONES, before));
      assert !Less(D.ALL_ONES, D.ALL_ONES);
      skipped := true;
    }
  }

  predicate AllButLast(lg: D.Logger) {
    lg.pc.ScanWorkers? && lg.pc.timeout && lg.pc.min == D.ALL_ONES && lg.pc.k + 1 == |lg.members|
  }

  /** The logger has bound 1 and no block of a, and has asked all but the last. */
  ghost predicate HalfAsked(g: S.Config, s: State, a: nat) {
    && |g.members| == 1 == |s.d.ls| && s.d.ls[0].members == g.members[0] && AllButLast(s.d.ls[0])
    && s.d.ls[0].queue == [] && s.d.ls[0].durable == 1 && s.d.durable == 0
    && forall i :: 0 <= i < |s.d.ls[0].file| ==> s.d.ls[0].file[i].owner != a
  }

  /** A new scan, which meets nobody with a CTIDW before it comes to b. */
  lemma AsksAllButB(g: S.Config, s: State, room: nat, a: nat, b: nat, p: nat) returns (t: State)
    requires Here(g, s, room) && Lone(g, a, b) && Passing(g, s, 0, a, b, p)
    ensures Here(g, t, room) && InFirst(g, t, a, b, p) && Waiting(t, b, 2) && t.c.ge == 2 && HalfAsked(g, t, a)
  {
    var k := |g.members[0]| - 1;
    assert BoundOne(g, s, 0, a, 0, 0);
    SeesOnly(g, s, 0, a, b, p);
    forall i | 0 <= i < |g.members[0]|
      ensures g.members[0][i] < |s.d.ws| && (i < k ==> s.d.ws[g.members[0][i]].ctidw == D.ALL_ONES)
    {
      Served(g, 0, g.members[0][i]);
      if i < k { assert g.members[0][i] != g.members[0][k]; }
    }
    var t1 := GoPipe(g, s, room, D.Timeout(0));
    RanNone(t1.d, LoggerThread(0));
    var skipped := ScansNothing(t1.d, s.d, 0, k);
    t := GoLogger(g, t1, room, 0, D.To(s.d, 0, D.ScanWorkers(true, k, D.ALL_ONES, skipped)));
    Served(g, 0, b);
    assert t.d.ws == s.d.ws[b := t.d.ws[b]];
    StillInFirst(g, s, t, a, b, p);
  }

  // ---- The clock moves on, and the scan ends with b -----------------------------------------

  /** a commits, the others try again, and all but b come to epoch 3. */
  lemma Third(g: S.Config, s: State, room: nat, a: nat, b: nat, p: nat) returns (t: State)
    requires Here(g, s, room) && room > 3 && Lone(g, a, b) && s.c.ge == 2
    requires InFirst(g, s, a, b, p) && Waiting(s, b, 2) && HalfAsked(g, s, a)
    ensures Here(g, t, room - 2) && CaughtUp(g, t, 0, a, b, p, 3) && HalfAsked(g, t, a)
  {
    var t1 := CommitsOne(g, s, room, a, p);
    forall v | 0 <= v < |s.c.ws| && v != a && v != b ensures Retries(t1, v) { assert Retries(s, v); }
    var t2 := LeaderTries(g, t1, room - 1, 0, a, b, p);
    assert forall v :: !StandsFor(g, 0, 0, v) && !StandsFor(g, 0, 1, v);
    t := AllStand(g, t2, room - 2, 0, a, b, p);
  }

  /** The scan comes to b and ends with its epoch. */
  lemma ScansLast(d: D.State, l: nat, b: nat) returns (skipped: bool)
    requires L.Fit(d, l) && AllButLast(d.ls[l]) && d.ls[l].members[|d.ls[l].members| - 1] == b
    requires DI.Real(d.ws[b].ctidw) && d.ws[b].ctidw.Valid()
    requires d.ws[b].ctidw.epoch == 3 && D.MinEpoch(d.ls[l].queue) >= 3
    ensures Ran(d, LoggerThread(l), D.To(d, l, D.Send(3, skipped)))
  {
    var pc := d.ls[l].pc;
    var c := d.ws[b].ctidw;
    RanNone(d, LoggerThread(l));
    assert D.To(d, l, pc) == d;
    L.ScanMore(d, d, l, pc);
    assert c.Obj() > 0;
    LessIsLexicographic(c, D.ALL_ONES);
    var end := D.ScanWorkers(true, pc.k + 1, c, pc.skipped || c == D.ALL_ONES);
    L.ScanEnds(d, d, l, end);
    skipped := end.skipped;
  }

  /** b raises its CTIDW once more; the scan that skipped a ends, and the fold makes the bound stored before
      durable. */
  lemma ScanEndsLate(g: S.Config, s: State, room: nat, a: nat, b: nat, p: nat) returns (t: State)
    requires Here(g, s, room) && room > 0 && Lone(g, a, b) && CaughtUp(g, s, 0, a, b, p, 3) && HalfAsked(g, s, a)
    ensures Here(g, t, room) && Lost(Sys(t), a, p)
  {
    Served(g, 0, b);
    var t1 := EpochWorks(g, s, room, b);
    KeptLastWrite(s, t1, a, p, b);
    assert forall i :: 0 <= i < |g.members[0]| ==> g.members[0][i] < |g.loggerOf|;
    var skipped := ScansLast(t1.d, 0, b);
    var d' := Stores(t1.d, t1.d, 0, 3, skipped, 0, 1);
    t := GoLogger(g, t1, room, 0, d');
  }

  /** With one logger that asks b last. */
  lemma LoneLoggerLoses(g: S.Config, a: nat, b: nat) returns (s: S.State, p: nat)
    requires Lone(g, a, b)
    ensures CodedReachable(g, s) && Lost(s, a, p)
  {
    var room := ROOM - FILL;
    var s1;
    s1, p := Passes(g, 0, a, b);
    var s2 := AsksAllButB(g, s1, room, a, b, p);
    var s3 := Third(g, s2, room, a, b, p);
    var t := ScanEndsLate(g, s3, room - 2, a, b, p);
    HereReachable(g, t, room - 2);
    s := Sys(t);
  }
}
