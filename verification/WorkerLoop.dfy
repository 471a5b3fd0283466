/** The whole program as worker_th drives it (main.cpp:50-84, transaction.cpp:290-333), until quit is set. To
    the two machines it adds where each worker thread stands in its loop. leaderWork is called once in each
    attempt and once in each epochWork; a transaction begins when neither the durable epoch nor an empty pool
    holds it back; an aborted one is tried again with the same operations. */
module WorkerLoops {
  import S = System
  import C = CommitModel
  import D = LogModel

  /** An element of pro_set_. */
  datatype Op = ReadOp(key: nat) | WriteOp(key: nat)

  datatype Place =
    | Retry                      // at RETRY, leaderWork not yet called
    | Led                        // leaderWork has been called in this attempt
    | Work(pausing: bool)        // in epochWork, called by the pause or by the wait for a buffer
    | WorkLed(pausing: bool)     // the same, leaderWork has been called
    | Back(pausing: bool)        // epochWork has loaded the epoch; next is the test of the loop around it
    | Run                        // from begin to the end of the attempt

  /** `ops` lists the operations of the attempt so far, `plan` those of the attempt that aborted before it.
      An operation that finds its key already taken up does nothing and is not listed, so that the MAX_OPE
      operations of a transaction amount to between one and MAX_OPE of these. */
  datatype Thread = Thread(place: Place, ops: seq<Op>, plan: D.Option<seq<Op>>)

  const START := Thread(Retry, [], D.None)

  datatype State = State(c: C.State, d: D.State, ts: seq<Thread>)

  function Sys(s: State): S.State {
    S.State(s.c, s.d)
  }

  datatype Action =
    | Tx(w: nat, a: C.Action)
    | Pipe(e: D.Action)
    | Test(w: nat)               // the thread finds that it has to wait (on) and enters epochWork

  // ---- When the code takes a step -----------------------------------------------------------

  predicate PauseCondition(s: State, w: nat) {
    && w < |s.c.ws| && w < |s.d.loggerOf| && s.d.loggerOf[w] < |s.d.ls|
    && s.c.ws[w].localEpoch > s.d.ls[s.d.loggerOf[w]].durable + s.d.epochDiff
  }

  predicate MustPause(s: State, w: nat) {
    s.d.epochDiff > 0 && PauseCondition(s, w)
  }

  /** durableEpochWork need not pause, or no longer. */
  predicate Unpaused(s: State, w: nat)
    requires w < |s.ts|
  {
    match s.ts[w].place
    case Retry => !MustPause(s, w)
    case Led => !MustPause(s, w)
    case Back(pausing) => !pausing || !MustPause(s, w)
    case _ => false
  }

  /** is_ready finds neither a current buffer nor one in the pool. */
  predicate NotReady(s: State, w: nat) {
    w < |s.d.ws| && s.d.ws[w].cur.None? && s.d.ws[w].free == []
  }

  /** The loop that waits for the durable epoch goes on. */
  predicate PausesOn(s: State, w: nat)
    requires w < |s.ts|
  {
    s.ts[w].place == Back(true) && MustPause(s, w)
  }

  /** The operation comes next, on a second attempt the one of the first. */
  predicate Follows(th: Thread, op: Op) {
    && th.place.Run? && |th.ops| < C.MAX_OPE
    && (th.plan.Some? ==> th.ops + [op] <= th.plan.value)
  }

  predicate Complete(th: Thread) {
    th.place.Run? && th.ops != [] && (th.plan.Some? ==> th.ops == th.plan.value)
  }

  predicate Allowed(s: State, w: nat, a: C.Action)
    requires w < |s.ts|
  {
    var th := s.ts[w];
    match a
    case Begin => Unpaused(s, w)
    case Read(key) => Follows(th, ReadOp(key))
    case Write(key) => Follows(th, WriteOp(key))
    case Commit => Complete(th)
    case EpochWork => th.place.Work? || th.place.WorkLed?
    case LeaderWork => th.place.Retry? || th.place.Work?
    case Quit => false
    case _ => true
  }

  predicate AllowedPipe(s: State, e: D.Action) {
    match e
    case Take(w) => w < |s.ts| && Unpaused(s, w)
    case Pause(w) => w < |s.ts| && (s.ts[w].place.Retry? || s.ts[w].place.Led?) && MustPause(s, w)
    case _ => true
  }

  predicate Enabled(s: State, a: Action) {
    match a
    case Tx(w, ca) => S.Enabled(Sys(s), S.Tx(w, ca)) && w < |s.ts| && Allowed(s, w, ca)
    case Pipe(e) => S.Enabled(Sys(s), S.Pipe(e)) && AllowedPipe(s, e)
    case Test(w) =>
      && w < |s.ts| && w < |s.c.ws| && w < |s.d.ws| && s.c.ws[w].pc.Idle? && s.d.ws[w].pc.Free?
      && (PausesOn(s, w) || (Unpaused(s, w) && NotReady(s, w)))
  }

  // ---- What it does to the thread -----------------------------------------------------------

  /** The attempt ends in an abort, or the transaction in a commit. */
  function Ended(c: C.State, w: nat, th: Thread): Thread
    requires w < |c.ws|
  {
    match c.ws[w].pc
    case UnlockLoad(k, end) => if k == end then Thread(Retry, [], D.Some(th.ops)) else th
    case Install(k, _) => if k == |c.ws[w].writeSet| then START else th
    case _ => th
  }

  /** leaderWork has been called. */
  function Leading(th: Thread): Thread {
    th.(place := if th.place.Work? then WorkLed(th.place.pausing) else Led)
  }

  function Moved(c: C.State, w: nat, th: Thread, a: C.Action): Thread
    requires w < |c.ws|
  {
    match a
    case Begin => th.(place := Run)
    case Read(key) => th.(ops := th.ops + [ReadOp(key)])
    case Write(key) => th.(ops := th.ops + [WriteOp(key)])
    case LeaderWork => Leading(th)
    case EpochWork => th.(place := Back((th.place.Work? || th.place.WorkLed?) && th.place.pausing))
    case Next => Ended(c, w, th)
    case _ => th
  }

  function Apply(s: State, a: Action): State
    requires Enabled(s, a)
  {
    match a
    case Tx(w, ca) =>
      var n := S.Apply(Sys(s), S.Tx(w, ca));
      State(n.c, n.d, s.ts[w := Moved(s.c, w, s.ts[w], ca)])
    case Pipe(e) =>
      State(s.c, D.Apply(s.d, e), if e.Pause? then s.ts[e.w := s.ts[e.w].(place := Work(true))] else s.ts)
    case Test(w) => s.(ts := s.ts[w := s.ts[w].(place := Work(PausesOn(s, w)))])
  }

  ghost predicate Reaches(s: State, trace: seq<Action>, s': State)
    decreases |trace|
  {
    if trace == [] then s' == s
    else Enabled(s, trace[0]) && Reaches(Apply(s, trace[0]), trace[1..], s')
  }

  function InitState(g: S.Config): State {
    var s := S.InitState(g);
    State(s.c, s.d, seq(|g.loggerOf|, _ => START))
  }

  /** The states of the program that its threads reach as coded. */
  ghost predicate CodedReachable(g: S.Config, s: S.State) {
    && S.ValidConfig(g) && S.Bounded(s)
    && exists trace, ts :: Reaches(InitState(g), trace, State(s.c, s.d, ts))
  }

  // ---- They are runs of the program ---------------------------------------------------------

  function Plain(trace: seq<Action>): seq<S.Action> {
    if trace == [] then []
    else (match trace[0]
          case Tx(w, a) => [S.Tx(w, a)]
          case Pipe(e) => [S.Pipe(e)]
          case Test(_) => []) + Plain(trace[1..])
  }

  lemma {:induction false} CodedIsRun(s: State, trace: seq<Action>, s': State)
    requires Reaches(s, trace, s')
    ensures S.Reaches(Sys(s), Plain(trace), Sys(s')) && |s'.ts| == |s.ts|
    decreases |trace|
  {
    if trace != [] {
      var rest := Plain(trace[1..]);
      CodedIsRun(Apply(s, trace[0]), trace[1..], s');
      match trace[0] {
        case Tx(w, a) => assert ([S.Tx(w, a)] + rest)[1..] == rest;
        case Pipe(e) => assert ([S.Pipe(e)] + rest)[1..] == rest;
        case Test(_) => assert Plain(trace) == rest;
      }
    }
  }

  lemma CodedIsReachable(g: S.Config, s: S.State)
    requires CodedReachable(g, s)
    ensures S.Reachable(g, s)
  {
    var trace, ts :| Reaches(InitState(g), trace, State(s.c, s.d, ts));
    CodedIsRun(InitState(g), trace, State(s.c, s.d, ts));
  }

  // ---- Runs without their traces ------------------------------------------------------------

  ghost predicate Closed(states: iset<State>) {
    forall s, a :: s in states && Enabled(s, a) ==> Apply(s, a) in states
  }

  /** t is in every set of states that has s and is closed under the steps of the program. */
  ghost predicate Leads(s: State, t: State) {
    forall states: iset<State> :: s in states && Closed(states) ==> t in states
  }

  lemma Then(s: State, t: State, a: Action)
    requires Leads(s, t) && Enabled(t, a)
    ensures Leads(s, Apply(t, a))
  {
  }

  ghost predicate Runs(s: State, t: State) {
    exists trace :: Reaches(s, trace, t)
  }

  lemma {:induction false} OneMore(s: State, trace: seq<Action>, t: State, a: Action)
    requires Reaches(s, trace, t) && Enabled(t, a)
    ensures Reaches(s, trace + [a], Apply(t, a))
    decreases |trace|
  {
    if trace == [] {
      assert Reaches(Apply(t, a), [], Apply(t, a));
    } else {
      OneMore(Apply(s, trace[0]), trace[1..], t, a);
      assert (trace + [a])[1..] == trace[1..] + [a];
    }
  }

  lemma RunsClosed(s: State)
    ensures Closed((iset t | Runs(s, t)))
  {
    forall t, a | t in (iset u | Runs(s, u)) && Enabled(t, a)
      ensures Apply(t, a) in (iset u | Runs(s, u))
    {
      var trace :| Reaches(s, trace, t);
      OneMore(s, trace, t, a);
    }
  }

  lemma LeadsIsRun(s: State, t: State)
    requires Leads(s, t)
    ensures exists trace :: Reaches(s, trace, t)
  {
    RunsClosed(s);
    assert Reaches(s, [], s);
    assert s in (iset u | Runs(s, u));
  }
}
