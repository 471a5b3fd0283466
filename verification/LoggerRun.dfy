/** Runs in which one logger takes its steps alone, or the leader moves the clock. */
module LoggerRuns {
  import opened TidWords
  import opened WorkerLoops
  import opened SystemRuns
  import opened LogRuns
  import S = System
  import WR = WorkerRuns
  import L = Loggers
  import C = CommitModel
  import D = LogModel
  import DI = LogInv

  // ---- The clock ----------------------------------------------------------------------------

  predicate MayLead(s: State) {
    WR.Rests(s, 0) && |s.ts| > 0 && (s.ts[0].place.Retry? || s.ts[0].place.Work?)
  }

  function Ticking(s: State, i: nat): State
    requires |s.c.ws| > 0 && |s.ts| > 0
  {
    State(s.c.(ws := s.c.ws[0 := s.c.ws[0].(pc := C.Scan(s.c.ge, i))]), s.d, s.ts[0 := Leading(s.ts[0])])
  }

  lemma {:induction false} Looks(g: S.Config, s: State, room: nat, i: nat)
    requires Here(g, s, room) && room > 0 && MayLead(s) && 1 <= i <= |s.c.ws|
    requires forall v :: 1 <= v < |s.c.ws| ==> s.c.ws[v].localEpoch == s.c.ge
    ensures Here(g, Ticking(s, i), room)
  {
    if i == 1 {
      HereReachable(g, s, room);
      CanMove(g, s, 0);
      var t := Go(g, s, room, 0, C.LeaderWork);
      assert t == Ticking(s, 1);
    } else {
      Looks(g, s, room, i - 1);
      CanGoOn(g, Ticking(s, i - 1), room, 0);
      var t := Go(g, Ticking(s, i - 1), room, 0, C.Next);
      LookTurns(s, i - 1);
    }
  }

  lemma LookTurns(s: State, i: nat)
    requires |s.ts| > 0 && 1 <= i < |s.c.ws| && s.c.ws[i].localEpoch == s.c.ge && Enabled(Ticking(s, i), Tx(0, C.Next))
    ensures Apply(Ticking(s, i), Tx(0, C.Next)) == Ticking(s, i + 1)
  {
    var t := Apply(Ticking(s, i), Tx(0, C.Next));
    assert t.c.ws == Ticking(s, i + 1).c.ws && t.ts == Ticking(s, i + 1).ts;
  }

  function Ticked(s: State): State
    requires |s.ts| > 0
  {
    State(s.c.(ge := s.c.ge + 1), s.d.(ge := s.c.ge + 1), s.ts[0 := Leading(s.ts[0])])
  }

  /** All threads but 0 have the current epoch, so the leader advances it, once in an attempt or epochWork. */
  lemma Ticks(g: S.Config, s: State, room: nat) returns (t: State)
    requires Here(g, s, room) && room > 0 && MayLead(s) && s.c.ge < 3
    requires forall v :: 1 <= v < |s.c.ws| ==> s.c.ws[v].localEpoch == s.c.ge
    ensures Here(g, t, room) && t == Ticked(s)
  {
    var n := |s.c.ws|;
    Looks(g, s, room, n);
    var u := Ticking(s, n);
    Placed(g, s, room);
    CanGoOn(g, u, room, 0);
    t := Go(g, u, room, 0, C.Next);
    assert t.c.ws == s.c.ws && t.ts == Ticked(s).ts;
  }

  // ---- A scan of the workers ----------------------------------------------------------------

  /** Every worker of logger l has no CTIDW yet or one of epoch e. */
  ghost predicate AtEpoch(d: D.State, l: nat, e: nat) {
    && l < |d.ls| && 1 <= e < EPOCH_LIMIT - 1
    && forall i :: 0 <= i < |d.ls[l].members| ==>
         d.ls[l].members[i] < |d.ws| && CtidwAt(d.ws[d.ls[l].members[i]].ctidw, e)
  }

  predicate CtidwAt(c: TidWord, e: nat) {
    c == D.ALL_ONES || (c.Valid() && c.epoch == e)
  }

  predicate RealAt(d: D.State, w: nat) {
    w < |d.ws| && DI.Real(d.ws[w].ctidw)
  }

  ghost predicate ScannedAt(d: D.State, l: nat, pc: D.LoggerPc, e: nat)
    requires l < |d.ls|
  {
    && pc.ScanWorkers? && (pc.min == D.ALL_ONES || (pc.min.Valid() && pc.min.epoch == e))
    && (forall i :: 0 <= i < pc.k && i < |d.ls[l].members| && RealAt(d, d.ls[l].members[i]) ==> pc.min.epoch == e)
  }

  lemma {:induction false} Scans(s0: D.State, d: D.State, l: nat, pc: D.LoggerPc, e: nat, k: nat)
    returns (pc': D.LoggerPc)
    requires AtEpoch(d, l, e) && ScannedAt(d, l, pc, e) && pc.k <= k <= |d.ls[l].members|
    requires Ran(s0, LoggerThread(l), D.To(d, l, pc))
    ensures ScannedAt(d, l, pc', e) && pc'.timeout == pc.timeout && pc'.k == k
    ensures Ran(s0, LoggerThread(l), D.To(d, l, pc'))
    decreases k - pc.k
  {
    if pc.k == k {
      pc' := pc;
    } else {
      var next := ScansOne(s0, d, l, pc, e);
      pc' := Scans(s0, d, l, next, e, k);
    }
  }

  lemma ScansOne(s0: D.State, d: D.State, l: nat, pc: D.LoggerPc, e: nat) returns (pc': D.LoggerPc)
    requires AtEpoch(d, l, e) && ScannedAt(d, l, pc, e) && pc.k < |d.ls[l].members|
    requires Ran(s0, LoggerThread(l), D.To(d, l, pc))
    ensures ScannedAt(d, l, pc', e) && pc'.timeout == pc.timeout && pc'.k == pc.k + 1
    ensures Ran(s0, LoggerThread(l), D.To(d, l, pc'))
  {
    var c := d.ws[d.ls[l].members[pc.k]].ctidw;
    L.ScanMore(s0, d, l, pc);
    pc' := D.ScanWorkers(pc.timeout, pc.k + 1, if c.Obj() > 0 && Less(c, pc.min) then c else pc.min,
                         pc.skipped || c == D.ALL_ONES);
    if c != D.ALL_ONES {
      assert c.Obj() > 0;
      if pc.min == D.ALL_ONES { LessIsLexicographic(c, pc.min); }
    }
  }

  /** The scan ends with the least epoch of the workers and of the queue. */
  lemma ScansToBound(s0: D.State, d: D.State, l: nat, pc: D.LoggerPc, e: nat, w: nat) returns (pc': D.LoggerPc)
    requires AtEpoch(d, l, e) && ScannedAt(d, l, pc, e) && pc.k <= |d.ls[l].members|
    requires Ran(s0, LoggerThread(l), D.To(d, l, pc)) && D.MinEpoch(d.ls[l].queue) > 0
    requires w < |d.ws| && w in d.ls[l].members && DI.Real(d.ws[w].ctidw)
    ensures Ran(s0, LoggerThread(l), D.To(d, l, pc'))
    ensures var qe := D.MinEpoch(d.ls[l].queue); var bound := if e > qe then qe else e;
            if pc.timeout then pc'.Send? && pc'.bound == bound else pc'.Dequeue? && pc'.bound == bound
  {
    var n := |d.ls[l].members|;
    var end := Scans(s0, d, l, pc, e, n);
    var i :| 0 <= i < n && d.ls[l].members[i] == w;
    assert RealAt(d, d.ls[l].members[i]) && end.min.epoch == e;
    L.ScanEnds(s0, d, l, end);
    pc' := L.ScanResult(d, l, end);
  }

  // ---- A new bound --------------------------------------------------------------------------

  /** m is the bound of logger j and the least of all. */
  ghost predicate Least(d: D.State, j: nat, m: nat) {
    j < |d.ls| && d.ls[j].durable == m && forall i :: 0 <= i < |d.ls| ==> m <= d.ls[i].durable
  }

  lemma {:induction false} Folds(d: D.State, l: nat, after: D.After, j: nat, m: nat, k: nat) returns (low: nat)
    requires L.Fit(d, l) && Least(d, j, m) && k <= |d.ls|
    ensures Ran(D.To(d, l, D.Fold(after, 0, 0)), LoggerThread(l), D.To(d, l, D.Fold(after, k, low)))
    ensures (k > 0 ==> m <= low) && (j < k ==> low == m)
  {
    var s0 := D.To(d, l, D.Fold(after, 0, 0));
    if k == 0 {
      low := 0;
      RanNone(s0, LoggerThread(l));
    } else {
      var low1 := Folds(d, l, after, j, m, k - 1);
      L.FoldMore(s0, d, l, after, k - 1, low1);
      low := if k == 1 || d.ls[k - 1].durable < low1 then d.ls[k - 1].durable else low1;
    }
  }

  /** check_durable raises DurableEpoch to m. */
  lemma Raises(d: D.State, l: nat, after: D.After, j: nat, m: nat) returns (dur: nat, pep: nat)
    requires L.Fit(d, l) && Least(d, j, m)
    ensures if d.durable < m then dur == pep == m else dur == d.durable && pep == d.pepoch
    ensures Ran(D.To(d, l, D.Fold(after, 0, 0)), LoggerThread(l), D.Resume(d, l, after).(durable := dur, pepoch := pep))
  {
    var s0 := D.To(d, l, D.Fold(after, 0, 0));
    var low := Folds(d, l, after, j, m, |d.ls|);
    L.FoldEnds(s0, d, l, after, m);
    if d.durable < m {
      dur, pep := m, m;
      L.Raised(s0, d, l, after, m);
    } else {
      dur, pep := d.durable, d.pepoch;
      L.NotRaised(s0, d, l, after, m);
    }
  }

  /** A bound to send: the fold, then the store. */
  lemma Stores(s0: D.State, d: D.State, l: nat, bound: nat, skipped: bool, j: nat, m: nat) returns (d': D.State)
    requires L.Fit(d, l) && Least(d, j, m) && d.ls[l].durable < bound - 1 && bound < D.NO_EPOCH
    requires Ran(s0, LoggerThread(l), D.To(d, l, D.Send(bound, skipped)))
    ensures Ran(s0, LoggerThread(l), d') && |d'.ls| == |d.ls|
    ensures if d.durable < m then d'.durable == d'.pepoch == m else d'.durable == d.durable && d'.pepoch == d.pepoch
    ensures d' == D.SetL(d, l, d'.ls[l]).(durable := d'.durable, pepoch := d'.pepoch)
    ensures d'.ls[l] == d.ls[l].(pc := D.Wait, durable := bound - 1, blind := d'.ls[l].blind)
  {
    var after := D.StoreNext(bound, skipped);
    L.SendStarts(d, l, bound, skipped);
    RanThen(s0, LoggerThread(l), D.To(d, l, D.Send(bound, skipped)), D.To(d, l, D.Fold(after, 0, 0)));
    var dur, pep := Raises(d, l, after, j, m);
    d' := L.BoundStored(s0, d, l, bound, skipped, dur, pep);
  }

  /** What a pass that only advances its bound leaves. */
  ghost predicate Advanced(d: D.State, d': D.State, l: nat, e: nat, m: nat) {
    && l < |d.ls| == |d'.ls| && e >= 1
    && d' == d.(ls := d.ls[l := d'.ls[l]], durable := d'.durable, pepoch := d'.pepoch)
    && (if d.durable < m then d'.durable == d'.pepoch == m else d'.durable == d.durable && d'.pepoch == d.pepoch)
    && d'.ls[l] == d.ls[l].(pc := D.Wait, durable := e - 1, blind := d'.ls[l].blind)
  }

  /** The scan after a timeout, with an empty queue, finds the bound e. */
  lemma Sees(d: D.State, l: nat, e: nat, w: nat) returns (skipped: bool)
    requires AtEpoch(d, l, e) && d.ls[l].pc.Wait? && d.ls[l].queue == [] && !d.ls[l].quit
    requires w < |d.ws| && w in d.ls[l].members && DI.Real(d.ws[w].ctidw)
    ensures D.Enabled(d, D.Timeout(l))
    ensures Ran(D.Apply(d, D.Timeout(l)), LoggerThread(l), D.To(d, l, D.Send(e, skipped)))
  {
    var t1 := D.Apply(d, D.Timeout(l));
    RanNone(t1, LoggerThread(l));
    var sent := ScansToBound(t1, d, l, D.ScanWorkers(true, 0, D.ALL_ONES, false), e, w);
    skipped := sent.skipped;
  }

  /** A logger with an empty queue times out and advances its bound to e - 1. */
  lemma BoundRises(d: D.State, l: nat, e: nat, w: nat, j: nat, m: nat) returns (d': D.State)
    requires AtEpoch(d, l, e) && Least(d, j, m) && d.ls[l].durable < e - 1
    requires d.ls[l].pc.Wait? && d.ls[l].queue == [] && !d.ls[l].quit
    requires w < |d.ws| && w in d.ls[l].members && DI.Real(d.ws[w].ctidw)
    ensures D.Enabled(d, D.Timeout(l)) && Ran(D.Apply(d, D.Timeout(l)), LoggerThread(l), d') && Advanced(d, d', l, e, m)
  {
    var skipped := Sees(d, l, e, w);
    d' := Stores(D.Apply(d, D.Timeout(l)), d, l, e, skipped, j, m);
    assert d'.ls == d.ls[l := d'.ls[l]];
  }

  lemma Advances(g: S.Config, s: State, room: nat, l: nat, e: nat, w: nat, m: nat) returns (t: State)
    requires Here(g, s, room) && AtEpoch(s.d, l, e) && Least(s.d, l, m) && m < e - 1
    requires s.d.ls[l].pc.Wait? && s.d.ls[l].queue == [] && !s.d.ls[l].quit
    requires w < |s.d.ws| && w in s.d.ls[l].members && DI.Real(s.d.ws[w].ctidw)
    ensures Here(g, t, room) && t == s.(d := t.d) && Advanced(s.d, t.d, l, e, m)
  {
    var d' := BoundRises(s.d, l, e, w, l, m);
    var t1 := GoPipe(g, s, room, D.Timeout(l));
    t := GoLogger(g, t1, room, l, d');
  }

  // ---- A pass that drains the queue ---------------------------------------------------------

  function Cleaned(q: seq<D.Buffer>): seq<D.Buffer> {
    seq(|q|, i requires 0 <= i < |q| => D.CleanBuffer(q[i].owner, q[i].id, q[i].used))
  }

  /** The batch is written out and its buffers, all of worker w, go back. */
  lemma {:induction false} WritesBatch(s0: D.State, d: D.State, l: nat, w: nat) returns (d': D.State)
    requires L.Fit(d, l) && d.ls[l].pc.WriteOut? && w < |d.ws| && Ran(s0, LoggerThread(l), d)
    requires forall i :: 0 <= i < |d.ls[l].pc.batch| ==> d.ls[l].pc.batch[i].owner == w
    ensures Ran(s0, LoggerThread(l), d') && L.Fit(d', l) && |d'.ws| == |d.ws| && |d'.ls| == |d.ls|
    ensures d' == d.(ws := d.ws[w := d'.ws[w]], ls := d.ls[l := d'.ls[l]])
    ensures d'.ws[w] == d.ws[w].(free := d.ws[w].free + Cleaned(d.ls[l].pc.batch))
    ensures d'.ls[l] == d.ls[l].(pc := d.ls[l].pc.(batch := []), file := d'.ls[l].file)
    ensures forall i :: 0 <= i < |d'.ls[l].file| ==>
              d'.ls[l].file[i].owner == w || d'.ls[l].file[i] in d.ls[l].file
    decreases |d.ls[l].pc.batch|
  {
    var batch := d.ls[l].pc.batch;
    if batch == [] {
      d' := d;
      assert d.ws[w].free + Cleaned(batch) == d.ws[w].free;
      assert d.ws[w := d.ws[w]] == d.ws && d.ls[l := d.ls[l]] == d.ls;
    } else {
      var d1 := L.Wrote(s0, d, l);
      d' := WritesBatch(s0, d1, l, w);
      CleanedFirst(batch);
      BatchOn(d, d1, d', l, w);
    }
  }

  lemma CleanedFirst(q: seq<D.Buffer>)
    requires q != []
    ensures Cleaned(q) == [D.CleanBuffer(q[0].owner, q[0].id, q[0].used)] + Cleaned(q[1..])
  {
  }

  lemma BatchOn(d: D.State, d1: D.State, d': D.State, l: nat, w: nat)
    requires l < |d.ls| && w < |d.ws| && d.ls[l].pc.WriteOut?
    requires d.ls[l].pc.batch != [] && d.ls[l].pc.batch[0].owner == w
    requires d1 == D.WriteOutStep(d, l) && |d1.ws| == |d.ws| == |d'.ws| && |d1.ls| == |d.ls| == |d'.ls|
    requires d' == d1.(ws := d1.ws[w := d'.ws[w]], ls := d1.ls[l := d'.ls[l]])
    requires var b := d.ls[l].pc.batch;
             Cleaned(b) == [D.CleanBuffer(w, b[0].id, b[0].used)] + Cleaned(b[1..])
    requires d'.ws[w] == d1.ws[w].(free := d1.ws[w].free + Cleaned(d.ls[l].pc.batch[1..]))
    ensures d' == d.(ws := d.ws[w := d'.ws[w]], ls := d.ls[l := d'.ls[l]])
    ensures d'.ws[w] == d.ws[w].(free := d.ws[w].free + Cleaned(d.ls[l].pc.batch))
  {
    assert d'.ws == d.ws[w := d'.ws[w]] && d'.ls == d.ls[l := d'.ls[l]];
    var first := [D.CleanBuffer(w, d.ls[l].pc.batch[0].id, d.ls[l].pc.batch[0].used)];
    assert d1.ws[w].free == d.ws[w].free + first;
    assert (d.ws[w].free + first) + Cleaned(d.ls[l].pc.batch[1..]) == d.ws[w].free + Cleaned(d.ls[l].pc.batch);
  }

  /** What a pass leaves that writes buffers of worker w and does not advance. */
  ghost predicate Drained(s: State, t: State, l: nat, w: nat) {
    && t == s.(d := t.d) && l < |s.d.ls| == |t.d.ls| && w < |s.d.ws| == |t.d.ws|
    && t.d == s.d.(ws := s.d.ws[w := t.d.ws[w]], ls := s.d.ls[l := t.d.ls[l]])
    && t.d.ws[w] == s.d.ws[w].(free := s.d.ws[w].free + Cleaned(s.d.ls[l].queue))
    && t.d.ls[l] == s.d.ls[l].(pc := D.Wait, queue := [], file := t.d.ls[l].file, synced := |t.d.ls[l].file|)
    && forall i :: 0 <= i < |t.d.ls[l].file| ==> t.d.ls[l].file[i].owner == w || t.d.ls[l].file[i] in s.d.ls[l].file
  }

  lemma Drains(g: S.Config, s: State, room: nat, l: nat, e: nat, w: nat) returns (t: State)
    requires Here(g, s, room) && AtEpoch(s.d, l, e) && s.d.ls[l].pc.Wait? && s.d.ls[l].queue != []
    requires w < |s.d.ws| && w in s.d.ls[l].members && DI.Real(s.d.ws[w].ctidw)
    requires forall i :: 0 <= i < |s.d.ls[l].queue| ==> s.d.ls[l].queue[i].owner == w
    requires var qe := D.MinEpoch(s.d.ls[l].queue); 1 <= qe <= e && qe <= s.d.ls[l].durable + 1
    ensures Here(g, t, room) && Drained(s, t, l, w)
  {
    var pc := D.ScanWorkers(false, 0, D.ALL_ONES, false);
    RanNone(s.d, LoggerThread(l));
    L.RanStep(s.d, l, s.d, D.To(s.d, l, pc));
    var deq := ScansToBound(s.d, s.d, l, pc, e, w);
    var d1 := L.Dequeued(s.d, D.To(s.d, l, deq), l);
    var d2 := WritesBatch(s.d, d1, l, w);
    var d3 := L.Flushed(s.d, d2, l);
    L.SendStarts(d3, l, deq.bound, deq.skipped);
    assert D.To(d3, l, D.Send(deq.bound, deq.skipped)) == d3;
    RanThen(s.d, LoggerThread(l), d3, D.To(d3, l, D.Wait));
    t := GoLogger(g, s, room, l, D.To(d3, l, D.Wait));
    assert t.d.ls == s.d.ls[l := t.d.ls[l]];
  }
}
