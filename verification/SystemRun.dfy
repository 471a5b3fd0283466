/** Runs of the whole program as its threads drive it, put together step by step. */
module SystemRuns {
  import opened TidWords
  import opened WorkerLoops
  import S = System
  import C = CommitModel
  import CL = CommitLog
  import CI = CommitInv
  import CT = CommitTheorems
  import D = LogModel
  import DS = LogSteps
  import DT = LogTheorems
  import LR = LogRuns

  // ---- Where a run stands -------------------------------------------------------------------

  /** In no epoch have so many transactions committed that `room` more would not fit its TIDs. */
  ghost predicate Room(log: seq<C.Entry>, room: nat) {
    forall e: nat :: C.Commits(log, e) + room < TID_LIMIT
  }

  /** A run has come to s, in one of the first epochs, with room for more commits. */
  ghost predicate Here(g: S.Config, s: State, room: nat) {
    S.ValidConfig(g) && Leads(InitState(g), s) && s.c.ge <= 3 && Room(s.c.log, room)
  }

  lemma HereReachable(g: S.Config, s: State, room: nat)
    requires Here(g, s, room)
    ensures CodedReachable(g, Sys(s)) && S.Reachable(g, Sys(s)) && S.Inv(Sys(s)) && S.Bounded(Sys(s))
    ensures s.c.init == g.init && s.c.wvals == g.wvals && |s.ts| == |g.loggerOf|
  {
    LeadsIsRun(InitState(g), s);
    var trace :| Reaches(InitState(g), trace, s);
    CodedIsRun(InitState(g), trace, s);
    assert C.Bounded(s.c) by { assert forall e: nat :: C.Commits(s.c.log, e) + room < TID_LIMIT; }
    assert State(s.c, s.d, s.ts) == s;
    S.ReachableInv(g, Sys(s));
  }

  /** The workers stay with the loggers that the configuration gives them. */
  lemma ConfigOf(g: S.Config, s: S.State)
    requires S.Reachable(g, s)
    ensures s.d.loggerOf == g.loggerOf && |s.d.ws| == |g.loggerOf| && |s.d.ls| == |g.members|
    ensures forall l :: 0 <= l < |s.d.ls| ==> s.d.ls[l].members == g.members[l]
  {
    S.PartsReachable(g, s);
    var init := D.InitState(g.epochDiff, g.loggerOf, g.members);
    var trace :| D.Reaches(init, trace, s.d);
    DT.RunGrows(init, trace, s.d);
    forall l | 0 <= l < |s.d.ls| ensures s.d.ls[l].members == g.members[l] {
      assert DT.LoggerGrows(init.ls[l], s.d.ls[l]);
    }
  }

  /** Each worker is in its place in both machines. */
  lemma Placed(g: S.Config, s: State, room: nat)
    requires Here(g, s, room)
    ensures s.c.ge == s.d.ge && |s.c.ws| == |s.d.ws| == |s.c.wvals| == |s.ts| == |g.loggerOf|
    ensures s.d.loggerOf == g.loggerOf && |s.d.ls| == |g.members|
    ensures forall w :: 0 <= w < |s.d.ws| ==> D.WorkerIn(s.d, w)
  {
    HereReachable(g, s, room);
    ConfigOf(g, Sys(s));
  }

  lemma LessRoom(g: S.Config, s: State, room: nat, less: nat)
    requires Here(g, s, room) && less <= room
    ensures Here(g, s, less)
  {
    forall e: nat ensures C.Commits(s.c.log, e) + less < TID_LIMIT { assert C.Commits(s.c.log, e) + room < TID_LIMIT; }
  }

  lemma Starts(g: S.Config)
    requires S.ValidConfig(g)
    ensures Here(g, InitState(g), TID_LIMIT - 1)
  {
  }

  // ---- Steps of one worker ------------------------------------------------------------------

  /** Other workers' transactions and their entries stay as they are; new entries write nothing. */
  ghost predicate LogKept(log: seq<C.Entry>, log': seq<C.Entry>, w: nat) {
    && |log| <= |log'|
    && (forall j :: 0 <= j < |log| ==> CL.Settles(log[j], log'[j], w))
    && (forall j :: |log| <= j < |log'| ==> log'[j].wset == [] && log'[j].worker == w)
  }

  /** Nothing but the records of worker w, tables and files may have changed. */
  ghost predicate Others(s: State, t: State, w: nat) {
    && |t.c.ws| == |s.c.ws| && |t.d.ws| == |s.d.ws| && |t.ts| == |s.ts|
    && (forall v :: 0 <= v < |s.c.ws| && v != w ==> t.c.ws[v] == s.c.ws[v])
    && (forall v :: 0 <= v < |s.d.ws| && v != w ==> t.d.ws[v] == s.d.ws[v])
    && (forall v :: 0 <= v < |s.ts| && v != w ==> t.ts[v] == s.ts[v])
    && t.c.init == s.c.init && t.c.wvals == s.c.wvals && t.c.ge == s.c.ge && |t.c.table| == |s.c.table|
    && t.d == s.d.(ws := t.d.ws, ls := t.d.ls) && |t.d.ls| == |s.d.ls|
  }

  /** Worker w moved and touched neither a tuple nor a logger. */
  ghost predicate Only(s: State, t: State, w: nat) {
    Others(s, t, w) && t.c.table == s.c.table && t.d.ls == s.d.ls && LogKept(s.c.log, t.c.log, w)
  }

  lemma LogKeptThen(log: seq<C.Entry>, log1: seq<C.Entry>, log2: seq<C.Entry>, w: nat)
    requires LogKept(log, log1, w) && LogKept(log1, log2, w)
    ensures LogKept(log, log2, w)
  {
    forall j | 0 <= j < |log| ensures CL.Settles(log[j], log2[j], w) {
      assert CL.Settles(log[j], log1[j], w) && CL.Settles(log1[j], log2[j], w);
    }
    forall j | |log| <= j < |log2| ensures log2[j].wset == [] && log2[j].worker == w {
      if j < |log1| { assert CL.Settles(log1[j], log2[j], w); }
    }
  }

  lemma OnlyThen(s: State, t: State, u: State, w: nat)
    requires Only(s, t, w) && Only(t, u, w)
    ensures Only(s, u, w)
  {
    LogKeptThen(s.c.log, t.c.log, u.c.log, w);
  }

  /** Steps that touch neither a tuple nor the clock. */
  predicate Local(c: C.State, w: nat, a: C.Action) {
    && w < |c.ws| && !a.LeaderWork? && !a.Quit?
    && (a.Next? ==>
          !c.ws[w].pc.LockTry? && !c.ws[w].pc.UnlockStore? && !c.ws[w].pc.Scan? &&
          (c.ws[w].pc.Install? ==> c.ws[w].writeSet == []) && (c.ws[w].pc.EpochLoad? ==> c.ws[w].writeSet == []))
  }

  lemma LocalCommit(c: C.State, w: nat, a: C.Action)
    requires C.Enabled(c, w, a) && Local(c, w, a)
    ensures var c' := C.Apply(c, w, a);
            c'.table == c.table && c'.ge == c.ge && c'.init == c.init && c'.wvals == c.wvals
    ensures var c' := C.Apply(c, w, a); |c'.log| > |c.log| ==> c'.log[|c.log|].wset == []
    ensures !a.Next? ==> C.Apply(c, w, a).log == c.log
  {
    if a.Next? { LocalNext(c, w); }
  }

  lemma LocalNext(c: C.State, w: nat)
    requires C.Enabled(c, w, C.Next) && Local(c, w, C.Next)
    ensures var c' := C.NextStep(c, w);
            c'.table == c.table && c'.ge == c.ge && c'.init == c.init && c'.wvals == c.wvals
    ensures var c' := C.NextStep(c, w); |c'.log| > |c.log| ==> c'.log[|c.log|].wset == []
  {
  }

  lemma LocalLog(c: C.State, w: nat, a: C.Action)
    requires C.Enabled(c, w, a) && Local(c, w, a) && CT.SlotsPending(c)
    ensures var c' := C.Apply(c, w, a); |c'.ws| == |c.ws| && c'.ws == c.ws[w := c'.ws[w]] && LogKept(c.log, c'.log, w)
  {
    CT.StepMovesLog(c, w, a);
    LocalCommit(c, w, a);
  }

  lemma DrivenOnly(d: D.State, e: D.Action)
    requires D.Enabled(d, e) && DS.Driven(e)
    ensures var d' := D.Apply(d, e);
            |d'.ws| == |d.ws| && d' == d.(ws := d.ws[e.w := d'.ws[e.w]])
  {
  }

  /** Steps other than the leader's scan and the end of a worker. */
  predicate Own(c: C.State, w: nat, a: C.Action) {
    w < |c.ws| && !a.LeaderWork? && !a.Quit? && !(a.Next? && c.ws[w].pc.Scan?)
  }

  lemma OwnFrame(s: State, w: nat, a: C.Action)
    requires Enabled(s, Tx(w, a)) && Own(s.c, w, a)
    ensures Others(s, Apply(s, Tx(w, a)), w) && Apply(s, Tx(w, a)).d.ls == s.d.ls
  {
    CT.StepMovesLog(s.c, w, a);
    OwnCommit(s.c, w, a);
    if S.Event(s.c, w, a).Some? {
      S.TxEventOfWorker(s.c, w, a);
      OwnEvent(s.c, w, a);
      DrivenOnly(s.d, S.Event(s.c, w, a).value);
    }
  }

  lemma OwnCommit(c: C.State, w: nat, a: C.Action)
    requires C.Enabled(c, w, a) && Own(c, w, a)
    ensures var c' := C.Apply(c, w, a);
            c'.ge == c.ge && c'.init == c.init && c'.wvals == c.wvals && |c'.table| == |c.table|
  {
  }

  lemma OwnEvent(c: C.State, w: nat, a: C.Action)
    requires C.Enabled(c, w, a) && Own(c, w, a) && S.Event(c, w, a).Some?
    ensures !S.Event(c, w, a).value.Advance? && !S.Event(c, w, a).value.Stop?
  {
  }

  lemma LocalFrame(s: State, w: nat, a: C.Action)
    requires Enabled(s, Tx(w, a)) && Local(s.c, w, a) && CT.SlotsPending(s.c)
    ensures Only(s, Apply(s, Tx(w, a)), w)
  {
    LocalLog(s.c, w, a);
    LocalCommit(s.c, w, a);
    OwnFrame(s, w, a);
  }

  lemma InvSlots(s: S.State)
    requires S.Inv(s)
    ensures CT.SlotsPending(s.c)
  {
    forall w | 0 <= w < |s.c.ws| && CI.PendingPc(s.c.ws[w].pc)
      ensures s.c.ws[w].slot < |s.c.log| && s.c.log[s.c.ws[w].slot].st.Pending? && s.c.log[s.c.ws[w].slot].worker == w
    {
      assert CI.WorkerOk(s.c, w) && CI.SlotOk(s.c, w);
    }
  }

  /** How many commits a step adds. */
  function Cost(c: C.State, w: nat, a: C.Action): nat {
    if w < |c.ws| && a.Next? && c.ws[w].pc.WriteTid? then 1 else 0
  }

  lemma StepRoom(c: C.State, w: nat, a: C.Action, room: nat)
    requires C.Enabled(c, w, a) && CT.SlotsPending(c) && Room(c.log, room) && Cost(c, w, a) <= room
    ensures Room(C.Apply(c, w, a).log, room - Cost(c, w, a))
  {
    var c' := C.Apply(c, w, a);
    CT.StepMovesLog(c, w, a);
    forall e: nat ensures C.Commits(c'.log, e) + (room - Cost(c, w, a)) < TID_LIMIT {
      assert C.Commits(c.log, e) + room < TID_LIMIT;
      if |c'.log| == |c.log| + 1 {
        assert c'.log == c.log + [c'.log[|c.log|]];
        CL.CommitsAppend(c.log, c'.log[|c.log|], e);
      } else if c'.log != c.log {
        var p := c.ws[w].slot;
        CL.CommitsSettle(c.log, p, c'.log[p].st, e);
        if Cost(c, w, a) == 0 { S.SettledStatus(c, w, a); }
      }
    }
  }

  /** A run goes on by a step of a worker's transaction that leaves the clock alone. */
  lemma Go(g: S.Config, s: State, room: nat, w: nat, a: C.Action) returns (t: State)
    requires Here(g, s, room) && Enabled(s, Tx(w, a)) && Cost(s.c, w, a) <= room
    requires C.Apply(s.c, w, a).ge <= 3
    ensures t == Apply(s, Tx(w, a)) && Here(g, t, room - Cost(s.c, w, a))
  {
    t := Apply(s, Tx(w, a));
    HereReachable(g, s, room);
    InvSlots(Sys(s));
    StepRoom(s.c, w, a, room);
    Then(InitState(g), s, Tx(w, a));
  }

  lemma GoLocal(g: S.Config, s: State, room: nat, w: nat, a: C.Action) returns (t: State)
    requires Here(g, s, room) && Enabled(s, Tx(w, a)) && Cost(s.c, w, a) <= room
    requires Local(s.c, w, a)
    ensures t == Apply(s, Tx(w, a)) && Here(g, t, room - Cost(s.c, w, a)) && Only(s, t, w)
    ensures !a.Next? ==> t.c.log == s.c.log
  {
    HereReachable(g, s, room);
    InvSlots(Sys(s));
    LocalCommit(s.c, w, a);
    LocalFrame(s, w, a);
    t := Go(g, s, room, w, a);
  }

  /** No access that a worker's next step makes is out of bounds. */
  lemma CanMove(g: S.Config, s: State, w: nat)
    requires S.Reachable(g, Sys(s)) && w < |s.c.ws|
    ensures C.InRange(s.c, w) || s.c.ws[w].pc.Finished?
    ensures !Standing(s.c.ws[w].pc) ==> C.Enabled(s.c, w, C.Next)
  {
    S.PartsReachable(g, Sys(s));
    CT.NeverStuck(g.init, g.wvals, s.c, w);
  }

  /** A worker whose phase says what it does next can do it. */
  lemma CanGoOn(g: S.Config, s: State, room: nat, w: nat)
    requires Here(g, s, room) && w < |s.c.ws| && room > 0
    requires !Standing(s.c.ws[w].pc)
    ensures Enabled(s, Tx(w, C.Next))
  {
    HereReachable(g, s, room);
    Placed(g, s, room);
    CanMove(g, s, w);
    assert C.Commits(s.c.log, s.c.ws[w].localEpoch) + room < TID_LIMIT;
    S.NeverBlocked(Sys(s), w, C.Next);
  }

  predicate Standing(pc: C.Pc) {
    pc.Idle? || pc.Running? || pc.Wal? || pc.Finished?
  }

  lemma Next(g: S.Config, s: State, room: nat, w: nat) returns (t: State)
    requires Here(g, s, room) && w < |s.c.ws| && room > 0 && !Standing(s.c.ws[w].pc) && Local(s.c, w, C.Next)
    ensures Enabled(s, Tx(w, C.Next)) && t == Apply(s, Tx(w, C.Next)) && Only(s, t, w)
    ensures Here(g, t, room - Cost(s.c, w, C.Next))
  {
    CanGoOn(g, s, room, w);
    t := GoLocal(g, s, room, w, C.Next);
  }

  /** The same for a step that may change a tuple or append an entry with writes. */
  lemma NextAny(g: S.Config, s: State, room: nat, w: nat) returns (t: State)
    requires Here(g, s, room) && room > 0 && w < |s.c.ws| && !Standing(s.c.ws[w].pc)
    requires Own(s.c, w, C.Next) && !s.c.ws[w].pc.WriteTid?
    ensures Enabled(s, Tx(w, C.Next)) && t == Apply(s, Tx(w, C.Next)) && Here(g, t, room)
    ensures Others(s, t, w) && t.d.ls == s.d.ls
  {
    CanGoOn(g, s, room, w);
    OwnFrame(s, w, C.Next);
    t := Go(g, s, room, w, C.Next);
  }

  // ---- Steps of the pipeline ----------------------------------------------------------------

  lemma GoPipe(g: S.Config, s: State, room: nat, e: D.Action) returns (t: State)
    requires Here(g, s, room) && S.Internal(e) && !e.Pause? && D.Enabled(s.d, e) && AllowedPipe(s, e)
    ensures t == s.(d := D.Apply(s.d, e)) && Here(g, t, room)
  {
    t := s.(d := D.Apply(s.d, e));
    assert Enabled(s, Pipe(e)) && Apply(s, Pipe(e)) == t;
    Then(InitState(g), s, Pipe(e));
  }

  /** What a logger does by itself in the pipeline it does in the program. */
  lemma GoLogger(g: S.Config, s: State, room: nat, l: nat, d: D.State) returns (t: State)
    requires Here(g, s, room) && LR.Ran(s.d, LR.LoggerThread(l), d)
    ensures t == s.(d := d) && Here(g, t, room)
  {
    t := s.(d := d);
    var ds := iset d' | Leads(InitState(g), s.(d := d'));
    assert s.(d := s.d) == s;
    forall d', a | d' in ds && LR.By(a, LR.LoggerThread(l)) && D.Enabled(d', a) ensures D.Apply(d', a) in ds {
      var u := s.(d := d');
      assert Enabled(u, Pipe(a)) && Apply(u, Pipe(a)) == s.(d := D.Apply(d', a));
      Then(InitState(g), u, Pipe(a));
    }
    assert LR.Closed(ds, LR.LoggerThread(l));
  }

  // ---- Steps of the thread's loop -----------------------------------------------------------

  function Stands(s: State, w: nat, th: Thread): State
    requires w < |s.ts|
  {
    s.(ts := s.ts[w := th])
  }

  /** A thread finds no buffer and enters epochWork. */
  lemma FindsNone(g: S.Config, s: State, room: nat, w: nat) returns (t: State)
    requires Here(g, s, room) && w < |s.c.ws| && s.c.ws[w].pc.Idle? && w < |s.d.ws| && s.d.ws[w].pc.Free?
    requires w < |s.ts| && Unpaused(s, w) && NotReady(s, w)
    ensures t == Stands(s, w, s.ts[w].(place := Work(false))) && Here(g, t, room)
  {
    t := Apply(s, Test(w));
    assert !PausesOn(s, w);
    Then(InitState(g), s, Test(w));
  }
}
