/** Runs of the pipeline in which one thread alone takes steps. */
module LogRuns {
  import D = LogModel
  import DT = LogTheorems

  datatype Thread = WorkerThread(w: nat) | LoggerThread(l: nat)

  /** The actions that a thread takes by itself. */
  predicate By(a: D.Action, who: Thread) {
    match who
    case WorkerThread(w) => (a.WorkerStep? || a.WalBegin? || a.EwLoad? || a.EwStore?) && a.w == w
    case LoggerThread(l) => a == D.LoggerStep(l)
  }

  ghost predicate Closed(states: iset<D.State>, who: Thread) {
    forall s, a :: s in states && By(a, who) && D.Enabled(s, a) ==> D.Apply(s, a) in states
  }

  /** The thread alone takes the pipeline from s to t: t is in every set of states that has s and is
      closed under the thread's actions. RanIsRun says the same with traces. */
  ghost predicate Ran(s: D.State, who: Thread, t: D.State) {
    forall states: iset<D.State> :: s in states && Closed(states, who) ==> t in states
  }

  lemma RanNone(s: D.State, who: Thread)
    ensures Ran(s, who, s)
  {
  }

  lemma Extend(s: D.State, who: Thread, t: D.State, a: D.Action) returns (t': D.State)
    requires Ran(s, who, t) && By(a, who) && D.Enabled(t, a)
    ensures t' == D.Apply(t, a) && Ran(s, who, t')
  {
    t' := D.Apply(t, a);
  }

  lemma RanThen(s: D.State, who: Thread, t: D.State, u: D.State)
    requires Ran(s, who, t) && Ran(t, who, u)
    ensures Ran(s, who, u)
  {
  }

  ghost predicate Own(who: Thread, acts: seq<D.Action>) {
    forall i :: 0 <= i < |acts| ==> By(acts[i], who)
  }

  ghost predicate Runs(s: D.State, who: Thread, t: D.State) {
    exists acts :: D.Reaches(s, acts, t) && Own(who, acts)
  }

  lemma RunsClosed(s: D.State, who: Thread)
    ensures Closed((iset t | Runs(s, who, t)), who)
  {
    var states := iset t | Runs(s, who, t);
    forall t, a | t in states && By(a, who) && D.Enabled(t, a) ensures D.Apply(t, a) in states {
      var acts :| D.Reaches(s, acts, t) && Own(who, acts);
      DT.ReachesOneMore(s, acts, t, a);
      assert Own(who, acts + [a]);
    }
  }

  lemma {:induction false} RunStays(states: iset<D.State>, who: Thread, s: D.State, acts: seq<D.Action>, t: D.State)
    requires Closed(states, who) && s in states && D.Reaches(s, acts, t) && Own(who, acts)
    ensures t in states
    decreases |acts|
  {
    if acts != [] {
      assert By(acts[0], who);
      RunStays(states, who, D.Apply(s, acts[0]), acts[1..], t);
    }
  }

  lemma RanIsRun(s: D.State, who: Thread, t: D.State)
    ensures Ran(s, who, t) <==> exists acts :: D.Reaches(s, acts, t) && Own(who, acts)
  {
    RunsClosed(s, who);
    assert D.Reaches(s, [], s) && Own(who, []);
    assert s in (iset u | Runs(s, who, u));
    if Runs(s, who, t) {
      var acts :| D.Reaches(s, acts, t) && Own(who, acts);
      forall states: iset<D.State> | s in states && Closed(states, who) ensures t in states {
        RunStays(states, who, s, acts, t);
      }
    }
  }
}
