/** The whole program: the commit protocol and the durability pipeline running together (main.cpp).
    A step of a worker's transaction that concerns the log is one joint step of both models. */
module System {
  import opened TidWords
  import C = CommitModel
  import CI = CommitInv
  import CS = CommitSteps
  import CT = CommitTheorems
  import D = LogModel
  import DI = LogInv
  import DS = LogSteps
  import DT = LogTheorems

  datatype State = State(c: C.State, d: D.State)

  datatype Action =
    | Tx(w: nat, a: C.Action)      // a step of worker_th
    | Pipe(e: D.Action)            // a step inside the pipeline

  // ---- Joint steps --------------------------------------------------------------------------

  /** The part of a worker's next step that the pipeline sees. */
  function NextEvent(c: C.State, w: nat): D.Option<D.Action>
    requires C.Enabled(c, w, C.Next)
  {
    var wk := c.ws[w];
    match wk.pc
    case EpochLoad => D.Some(D.EpochLoaded(w))
    case Validate(k) =>
      if k < |wk.readSet| && C.NextStep(c, w).ws[w].pc.UnlockLoad? then D.Some(D.TxAbort(w)) else D.None
    case WriteTid =>
      D.Some(D.WalBegin(w, CommitTid(wk.maxW, wk.maxR, wk.last, wk.localEpoch), wk.writeSet, c.wvals[w]))
    case UnlockLoad(k, end) => if k == end then D.Some(D.TxEnd(w)) else D.None
    case Install(k, _) => if k == |wk.writeSet| then D.Some(D.TxEnd(w)) else D.None
    case EwStore(_) => D.Some(D.EwStore(w))
    case Scan(_, i) => if i >= |c.ws| then D.Some(D.Advance) else D.None
    case _ => D.None
  }

  function Event(c: C.State, w: nat, a: C.Action): D.Option<D.Action>
    requires C.Enabled(c, w, a)
  {
    match a
    case Begin => D.Some(D.TxBegin(w))
    case Next => NextEvent(c, w)
    case LogDone => D.Some(D.WalReturn(w))
    case EpochWork => D.Some(D.EwLoad(w))
    case Quit => D.Some(D.Stop(w))
    case _ => D.None
  }

  /** Steps the pipeline takes by itself. */
  predicate Internal(e: D.Action) {
    e.WorkerStep? || e.Take? || e.Pause? || e.Timeout? || e.LoggerStep?
  }

  predicate Enabled(s: State, a: Action) {
    match a
    case Tx(w, ca) =>
      && C.Enabled(s.c, w, ca)
      && (Event(s.c, w, ca).Some? ==> D.Enabled(s.d, Event(s.c, w, ca).value))
      && (ca.LeaderWork? ==> w < |s.d.ws| && s.d.ws[w].pc.Free?)
    case Pipe(e) => Internal(e) && D.Enabled(s.d, e)
  }

  function Apply(s: State, a: Action): State
    requires Enabled(s, a)
  {
    match a
    case Tx(w, ca) =>
      State(C.Apply(s.c, w, ca),
            if Event(s.c, w, ca).Some? then D.Apply(s.d, Event(s.c, w, ca).value) else s.d)
    case Pipe(e) => s.(d := D.Apply(s.d, e))
  }

  ghost predicate Reaches(s: State, trace: seq<Action>, s': State)
    decreases |trace|
  {
    if trace == [] then s' == s
    else Enabled(s, trace[0]) && Reaches(Apply(s, trace[0]), trace[1..], s')
  }

  ghost predicate Bounded(s: State) {
    C.Bounded(s.c)
  }

  // ---- How the two models stand to each other -----------------------------------------------

  /** The pushes that the committed transactions of w amount to, in log order. */
  function PushesOf(log: seq<C.Entry>, w: nat): seq<D.Push> {
    if log == [] then []
    else
      var n := |log| - 1;
      var e := log[n];
      if e.worker == w && e.st.Committed? && e.wset != []
      then PushesOf(log[..n], w) + [D.Records(e.st.ctid, e.wset, e.val)]
      else PushesOf(log[..n], w)
  }

  /** A push that wal has received and not yet appended. */
  function Underway(x: D.LogWorker): seq<D.Push> {
    if (x.pc.WalPublish? || x.pc.WalAppend?) && x.pc.push != [] then [x.pc.push] else []
  }

  predicate InWal(pc: D.LogPc) {
    pc.WalPublish? || pc.WalAppend? || pc.WalFull? || pc.WalStore? || pc.WalDone?
  }

  predicate Reading(pc: C.Pc) {
    pc.Running? || pc.ReadLoad? || pc.ReadCopy? || pc.LockLoad? || pc.LockTry? || pc.EpochLoad?
  }

  predicate Unlocking(pc: C.Pc) {
    pc.UnlockLoad? || pc.UnlockStore?
  }

  /** Where a worker stands in one model says where it stands in the other. */
  ghost predicate PcLink(c: C.State, w: nat, x: D.LogWorker)
    requires w < |c.ws|
  {
    var pc := c.ws[w].pc;
    match x.pc
    case Free => pc.Idle? || pc.Scan?
    case InTx => Reading(pc) || Unlocking(pc)
    case Window(e) => CI.PendingPc(pc) && c.ws[w].slot < |c.log| && c.log[c.ws[w].slot].epoch == e
    case Tail => pc.Install? || Unlocking(pc)
    case EwLoaded(e) => pc.EwStore? && pc.epoch == e
    case EwStored(_) => pc.Idle?
    case Ending => pc.Finished?
    case Stopped => pc.Finished?
    case _ => pc.Wal?
  }

  ghost predicate LinkOk(s: State, w: nat)
    requires w < |s.c.ws| && w < |s.d.ws|
  {
    && PcLink(s.c, w, s.d.ws[w])
    && PushesOf(s.c.log, w) == s.d.ws[w].hist + Underway(s.d.ws[w])
  }

  ghost predicate Linked(s: State) {
    && |s.c.ws| == |s.d.ws| && s.c.ge == s.d.ge
    && forall w :: 0 <= w < |s.c.ws| ==> LinkOk(s, w)
  }

  ghost predicate Inv(s: State) {
    CI.Inv(s.c) && DI.Inv(s.d) && Linked(s)
  }

  // ---- Lemmas about pushes ------------------------------------------------------------------

  lemma {:induction false} PushesSame(log: seq<C.Entry>, log': seq<C.Entry>, w: nat)
    requires |log| == |log'|
    requires forall j :: 0 <= j < |log| ==>
               log'[j] == log[j] || (log'[j].worker == log[j].worker != w)
               || (!log[j].st.Committed? && !log'[j].st.Committed?)
    ensures PushesOf(log', w) == PushesOf(log, w)
  {
    if log != [] {
      var n := |log| - 1;
      PushesSame(log[..n], log'[..n], w);
    }
  }

  /** The last entry of w commits: its records come last. */
  lemma {:induction false} PushesCommit(log: seq<C.Entry>, p: nat, ctid: TidWord, w: nat)
    requires p < |log| && log[p].worker == w && !log[p].st.Committed?
    requires forall j :: p < j < |log| ==> log[j].worker != w
    ensures var log' := log[p := log[p].(st := C.Committed(ctid))];
            PushesOf(log', w) == PushesOf(log, w) + if log[p].wset == [] then []
                else [D.Records(ctid, log[p].wset, log[p].val)]
    decreases |log|
  {
    var n := |log| - 1;
    var log' := log[p := log[p].(st := C.Committed(ctid))];
    if p < n {
      assert log'[..n] == log[..n][p := log[p].(st := C.Committed(ctid))];
      PushesCommit(log[..n], p, ctid, w);
    } else {
      assert log'[..n] == log[..n];
    }
  }

  /** The pushes of w when w appended a pending entry, settled one without committing, or did neither. */
  lemma PushesKept(c: C.State, w: nat, a: C.Action, v: nat)
    requires CI.Inv(c) && C.Enabled(c, w, a)
    requires v != w || !(a.Next? && c.ws[w].pc.WriteTid?)
    ensures PushesOf(C.Apply(c, w, a).log, v) == PushesOf(c.log, v)
  {
    var c' := C.Apply(c, w, a);
    CT.StepMovesLog(c, w, a);
    if c'.log != c.log && |c'.log| == |c.log| {
      assert CI.WorkerOk(c, w) && CI.SlotOk(c, w);
      SettledKept(c, w, a, v);
    }
  }

  lemma SettledKept(c: C.State, w: nat, a: C.Action, v: nat)
    requires C.Enabled(c, w, a) && CI.PendingPc(c.ws[w].pc) && c.ws[w].slot < |c.log| && c.log[c.ws[w].slot].worker == w
    requires c.log[c.ws[w].slot].st.Pending? && (v != w || !(a.Next? && c.ws[w].pc.WriteTid?))
    requires var c' := C.Apply(c, w, a); var p := c.ws[w].slot;
             |c'.log| == |c.log| && c'.log == c.log[p := c.log[p].(st := c'.log[p].st)]
    ensures PushesOf(C.Apply(c, w, a).log, v) == PushesOf(c.log, v)
  {
    if !(a.Next? && c.ws[w].pc.WriteTid?) { SettledStatus(c, w, a); }
    PushesSame(c.log, C.Apply(c, w, a).log, v);
  }

  lemma SettledStatus(c: C.State, w: nat, a: C.Action)
    requires C.Enabled(c, w, a) && CI.PendingPc(c.ws[w].pc) && c.ws[w].slot < |c.log|
    requires !(a.Next? && c.ws[w].pc.WriteTid?) && |C.Apply(c, w, a).log| == |c.log|
    ensures var p := c.ws[w].slot; var c' := C.Apply(c, w, a);
            c'.log[p] == c.log[p] || c'.log[p].st.Aborted?
  {
  }

  lemma PushesCommitted(c: C.State, w: nat)
    requires CI.Inv(c) && C.Enabled(c, w, C.Next) && c.ws[w].pc.WriteTid?
    ensures var wk := c.ws[w]; var ctid := CommitTid(wk.maxW, wk.maxR, wk.last, wk.localEpoch);
            PushesOf(C.Apply(c, w, C.Next).log, w) ==
            PushesOf(c.log, w) + if wk.writeSet == [] then [] else [D.Records(ctid, wk.writeSet, c.wvals[w])]
  {
    var wk := c.ws[w];
    assert CI.WorkerOk(c, w) && CI.SlotOk(c, w);
    PushesCommit(c.log, wk.slot, CommitTid(wk.maxW, wk.maxR, wk.last, wk.localEpoch), w);
  }

  // ---- Joint steps keep the link ------------------------------------------------------------

  /** A step of one worker in the commit protocol changes nothing about the others' standing. */
  lemma OtherLinkKept(s: State, w: nat, a: C.Action, v: nat)
    requires Inv(s) && C.Enabled(s.c, w, a) && v < |s.c.ws| && v != w
    ensures var c' := C.Apply(s.c, w, a);
            && |c'.ws| == |s.c.ws|
            && PcLink(c', v, s.d.ws[v]) && PushesOf(c'.log, v) == s.d.ws[v].hist + Underway(s.d.ws[v])
  {
    var c' := C.Apply(s.c, w, a);
    assert LinkOk(s, v) && CI.WorkerOk(s.c, v);
    CT.StepMovesLog(s.c, w, a);
    PushesKept(s.c, w, a, v);
    if s.d.ws[v].pc.Window? {
      assert CI.SlotOk(s.c, v);
      if CI.PendingPc(s.c.ws[w].pc) { assert CI.WorkerOk(s.c, w) && CI.SlotOk(s.c, w); }
    }
  }

  /** A driven step of the pipeline changes the record of its worker only; Advance changes none. */
  lemma DrivenFrame(d: D.State, e: D.Action)
    requires D.Enabled(d, e) && DS.Driven(e)
    ensures var d' := D.Apply(d, e);
            && e.w < |d.ws| == |d'.ws| && d'.ws == d.ws[e.w := d'.ws[e.w]] && d'.ge == d.ge && d'.ls == d.ls
            && d'.ws[e.w] == d.ws[e.w].(pc := d'.ws[e.w].pc)
  {
  }

  lemma TxEventOfWorker(c: C.State, w: nat, a: C.Action)
    requires C.Enabled(c, w, a) && Event(c, w, a).Some?
    ensures var e := Event(c, w, a).value;
            (DS.Driven(e) && e.w == w) || e.Advance? || (a.Quit? && e == D.Stop(w))
  {
  }

  /** The program counters after a joint step. */
  lemma OwnPcLink(s: State, w: nat, a: C.Action)
    requires Inv(s) && Enabled(s, Tx(w, a)) && !a.Quit?
    requires !(a.Next? && (s.c.ws[w].pc.WriteTid? || s.c.ws[w].pc.Validate? || s.c.ws[w].pc.EpochLoad?))
    ensures var s' := Apply(s, Tx(w, a));
            && |s'.c.ws| == |s.c.ws| && |s'.d.ws| == |s.d.ws|
            && PcLink(s'.c, w, s'.d.ws[w]) && s'.d.ws[w].hist == s.d.ws[w].hist
            && Underway(s'.d.ws[w]) == Underway(s.d.ws[w])
  {
    assert LinkOk(s, w) && CI.WorkerOk(s.c, w);
    if a.Next? { OwnNextLink(s, w); } else { OwnDrivenLink(s, w, a); }
  }

  lemma OwnDrivenLink(s: State, w: nat, a: C.Action)
    requires w < |s.d.ws| && Enabled(s, Tx(w, a)) && !a.Quit? && !a.Next? && s.c.ge == s.d.ge
    requires PcLink(s.c, w, s.d.ws[w])
    ensures var s' := Apply(s, Tx(w, a));
            && |s'.c.ws| == |s.c.ws| && |s'.d.ws| == |s.d.ws|
            && PcLink(s'.c, w, s'.d.ws[w]) && s'.d.ws[w].hist == s.d.ws[w].hist
            && Underway(s'.d.ws[w]) == Underway(s.d.ws[w])
  {
  }

  lemma OwnNextLink(s: State, w: nat)
    requires Inv(s) && Enabled(s, Tx(w, C.Next)) && LinkOk(s, w)
    requires !s.c.ws[w].pc.WriteTid? && !s.c.ws[w].pc.Validate? && !s.c.ws[w].pc.EpochLoad?
    ensures var s' := Apply(s, Tx(w, C.Next));
            && |s'.c.ws| == |s.c.ws| && |s'.d.ws| == |s.d.ws|
            && PcLink(s'.c, w, s'.d.ws[w]) && s'.d.ws[w].hist == s.d.ws[w].hist
            && Underway(s'.d.ws[w]) == Underway(s.d.ws[w])
  {
    NextPhase(s.c, w);
    var e := NextEvent(s.c, w);
    if e.Some? {
      TxEventOfWorker(s.c, w, C.Next);
      if DS.Driven(e.value) { DrivenFrame(s.d, e.value); }
    }
  }

  /** How the phase of a worker moves, and what the pipeline sees of it. */
  lemma NextPhase(c: C.State, w: nat)
    requires C.Enabled(c, w, C.Next)
    requires !c.ws[w].pc.WriteTid? && !c.ws[w].pc.Validate? && !c.ws[w].pc.EpochLoad?
    ensures var c' := C.NextStep(c, w); var pc, pc' := c.ws[w].pc, c'.ws[w].pc;
            && |c'.ws| == |c.ws| && c'.log == c.log && c'.ws[w].slot == c.ws[w].slot
            && match NextEvent(c, w) {
                 case None => (Reading(pc) && (Reading(pc') || Unlocking(pc'))) || (Unlocking(pc) && Unlocking(pc'))
                              || (pc.EpochStore? && CI.PendingPc(pc')) || (pc.Install? && pc'.Install?)
                              || (pc.Scan? && (pc'.Scan? || pc'.Idle?))
                 case Some(TxEnd(v)) => v == w && (Unlocking(pc) || pc.Install?) && pc'.Idle?
                 case Some(EwStore(v)) => v == w && pc.EwStore? && pc'.Idle?
                 case Some(e) => e.Advance? && pc.Scan? && pc'.Idle?
               }
  {
  }

  lemma WindowLink(s: State, w: nat)
    requires Inv(s) && Enabled(s, Tx(w, C.Next)) && (s.c.ws[w].pc.Validate? || s.c.ws[w].pc.EpochLoad?)
    ensures var s' := Apply(s, Tx(w, C.Next));
            && |s'.c.ws| == |s.c.ws| && |s'.d.ws| == |s.d.ws|
            && PcLink(s'.c, w, s'.d.ws[w]) && s'.d.ws[w].hist == s.d.ws[w].hist
            && Underway(s'.d.ws[w]) == Underway(s.d.ws[w])
  {
    assert LinkOk(s, w) && CI.WorkerOk(s.c, w);
    if s.c.ws[w].pc.Validate? { ValidateLink(s, w); } else { EpochLoadLink(s, w); }
  }

  lemma EpochLoadLink(s: State, w: nat)
    requires w < |s.d.ws| && s.c.ge == s.d.ge && Enabled(s, Tx(w, C.Next)) && s.c.ws[w].pc.EpochLoad?
    requires PcLink(s.c, w, s.d.ws[w])
    ensures var s' := Apply(s, Tx(w, C.Next));
            && |s'.c.ws| == |s.c.ws| && |s'.d.ws| == |s.d.ws|
            && PcLink(s'.c, w, s'.d.ws[w]) && s'.d.ws[w].hist == s.d.ws[w].hist
            && Underway(s'.d.ws[w]) == Underway(s.d.ws[w])
  {
  }

  lemma ValidateLink(s: State, w: nat)
    requires w < |s.d.ws| && Enabled(s, Tx(w, C.Next)) && s.c.ws[w].pc.Validate?
    requires PcLink(s.c, w, s.d.ws[w])
    ensures var s' := Apply(s, Tx(w, C.Next));
            && |s'.c.ws| == |s.c.ws| && |s'.d.ws| == |s.d.ws|
            && PcLink(s'.c, w, s'.d.ws[w]) && s'.d.ws[w].hist == s.d.ws[w].hist
            && Underway(s'.d.ws[w]) == Underway(s.d.ws[w])
  {
  }

  lemma WriteTidLink(s: State, w: nat)
    requires Inv(s) && Enabled(s, Tx(w, C.Next)) && s.c.ws[w].pc.WriteTid?
    ensures var s' := Apply(s, Tx(w, C.Next));
            |s'.c.ws| == |s.c.ws| && |s'.d.ws| == |s.d.ws| && LinkOk(s', w)
  {
    var wk := s.c.ws[w];
    var ctid := CommitTid(wk.maxW, wk.maxR, wk.last, wk.localEpoch);
    assert LinkOk(s, w);
    PushesCommitted(s.c, w);
    assert NextEvent(s.c, w) == D.Some(D.WalBegin(w, ctid, wk.writeSet, s.c.wvals[w]));
    WalBegun(s.d, w, ctid, wk.writeSet, s.c.wvals[w]);
  }

  lemma WalBegun(d: D.State, w: nat, ctid: TidWord, keys: seq<nat>, val: C.Value)
    requires D.Enabled(d, D.WalBegin(w, ctid, keys, val))
    ensures var x' := D.WalBeginStep(d, w, ctid, keys, val).ws[w];
            && (x'.pc.WalPublish? || x'.pc.WalAppend?) && x'.pc.push == D.Records(ctid, keys, val)
            && x'.hist == d.ws[w].hist && Underway(d.ws[w]) == []
            && Underway(x') == (if keys == [] then [] else [D.Records(ctid, keys, val)])
  {
  }

  lemma QuitLink(s: State, w: nat)
    requires Inv(s) && Enabled(s, Tx(w, C.Quit))
    ensures var s' := Apply(s, Tx(w, C.Quit));
            |s'.c.ws| == |s.c.ws| && |s'.d.ws| == |s.d.ws| && LinkOk(s', w) && s'.d.ge == s.d.ge
    ensures forall v :: 0 <= v < |s.d.ws| && v != w ==> Apply(s, Tx(w, C.Quit)).d.ws[v] == s.d.ws[v]
  {
    assert LinkOk(s, w);
    StopMoves(s.d, w);
  }

  lemma StopMoves(d: D.State, w: nat)
    requires D.Enabled(d, D.Stop(w))
    ensures var d' := D.Apply(d, D.Stop(w));
            && |d'.ws| == |d.ws| && d'.ge == d.ge && d'.ws == d.ws[w := d'.ws[w]]
            && d'.ws[w].pc.Ending? && d'.ws[w].hist == d.ws[w].hist
  {
  }

  /** GlobalEpoch advances in both models together. */
  lemma ClockLink(s: State, w: nat, a: C.Action)
    requires Inv(s) && Enabled(s, Tx(w, a))
    ensures Apply(s, Tx(w, a)).c.ge == Apply(s, Tx(w, a)).d.ge
  {
    if Event(s.c, w, a).Some? {
      TxEventOfWorker(s.c, w, a);
      var e := Event(s.c, w, a).value;
      if DS.Driven(e) { DrivenFrame(s.d, e); }
    }
  }

  lemma TxKeepsLink(s: State, w: nat, a: C.Action)
    requires Inv(s) && Enabled(s, Tx(w, a))
    ensures Linked(Apply(s, Tx(w, a)))
  {
    var s' := Apply(s, Tx(w, a));
    ClockLink(s, w, a);
    OwnLink(s, w, a);
    forall v | 0 <= v < |s'.c.ws| ensures LinkOk(s', v) {
      if v != w {
        OtherLinkKept(s, w, a, v);
        OtherRecordKept(s, w, a, v);
      }
    }
  }

  lemma OtherRecordKept(s: State, w: nat, a: C.Action, v: nat)
    requires Inv(s) && Enabled(s, Tx(w, a)) && v < |s.d.ws| && v != w
    ensures var s' := Apply(s, Tx(w, a)); |s'.d.ws| == |s.d.ws| && s'.d.ws[v] == s.d.ws[v]
  {
    if Event(s.c, w, a).Some? {
      TxEventOfWorker(s.c, w, a);
      var e := Event(s.c, w, a).value;
      if DS.Driven(e) { DrivenFrame(s.d, e); } else if a.Quit? { QuitLink(s, w); }
    }
  }

  lemma OwnLink(s: State, w: nat, a: C.Action)
    requires Inv(s) && Enabled(s, Tx(w, a))
    ensures var s' := Apply(s, Tx(w, a)); |s'.c.ws| == |s.c.ws| && |s'.d.ws| == |s.d.ws| && LinkOk(s', w)
  {
    assert LinkOk(s, w);
    if a.Quit? {
      QuitLink(s, w);
    } else if a.Next? && s.c.ws[w].pc.WriteTid? {
      WriteTidLink(s, w);
    } else {
      PushesKept(s.c, w, a, w);
      if a.Next? && (s.c.ws[w].pc.Validate? || s.c.ws[w].pc.EpochLoad?) {
        WindowLink(s, w);
      } else {
        OwnPcLink(s, w, a);
      }
    }
  }

  // ---- Steps inside the pipeline ------------------------------------------------------------

  /** The pipeline's own steps keep hist + underway and the phase of every worker. */
  lemma PipeKeepsLink(s: State, e: D.Action)
    requires Inv(s) && Enabled(s, Pipe(e))
    ensures Linked(Apply(s, Pipe(e)))
  {
    var s' := Apply(s, Pipe(e));
    DT.StepGrows(s.d, e);
    PipeClock(s.d, e);
    forall v | 0 <= v < |s'.c.ws| ensures LinkOk(s', v) {
      PipeLink(s, e, v);
    }
  }

  lemma PipeLink(s: State, e: D.Action, v: nat)
    requires Enabled(s, Pipe(e)) && v < |s.c.ws| == |s.d.ws| && LinkOk(s, v)
    ensures |D.Apply(s.d, e).ws| == |s.d.ws| && LinkOk(s.(d := D.Apply(s.d, e)), v)
  {
    PipeRecord(s.d, e, v);
  }

  lemma PipeClock(d: D.State, e: D.Action)
    requires D.Enabled(d, e) && Internal(e)
    ensures D.Apply(d, e).ge == d.ge
  {
    if e.LoggerStep? && !d.ls[e.l].pc.WriteOut? && !d.ls[e.l].pc.StoreBound? {
      DT.LoggerPcOnly(d, e.l);
    } else if e.WorkerStep? {
      DT.WorkerStepFrame(d, e.w);
    }
  }

  /** Same phase, and nothing lost between underway and hist. */
  ghost predicate SamePhase(x: D.LogWorker, x': D.LogWorker) {
    && x'.hist + Underway(x') == x.hist + Underway(x)
    && (x'.pc == x.pc || (InWal(x.pc) && InWal(x'.pc)) || (x.pc.EwStored? && x'.pc.Free?) ||
        (x.pc.Ending? && x'.pc.Stopped?))
  }

  lemma PipeRecord(d: D.State, e: D.Action, v: nat)
    requires D.Enabled(d, e) && Internal(e) && v < |d.ws|
    ensures |D.Apply(d, e).ws| == |d.ws| && SamePhase(d.ws[v], D.Apply(d, e).ws[v])
  {
    if e.LoggerStep? {
      LoggerRecord(d, e.l, v);
    } else if e.WorkerStep? {
      WorkerRecord(d, e.w, v);
    }
  }

  lemma LoggerRecord(d: D.State, l: nat, v: nat)
    requires D.Enabled(d, D.LoggerStep(l)) && v < |d.ws|
    ensures |D.LoggerStepOf(d, l).ws| == |d.ws| && SamePhase(d.ws[v], D.LoggerStepOf(d, l).ws[v])
  {
    if d.ls[l].pc.WriteOut? {
      assert SamePhase(d.ws[v], D.WriteOutStep(d, l).ws[v]);
    } else if d.ls[l].pc.StoreBound? {
      assert D.StoreBoundStep(d, l).ws == d.ws;
    } else {
      DT.LoggerPcOnly(d, l);
    }
  }

  lemma WorkerRecord(d: D.State, w: nat, v: nat)
    requires D.Enabled(d, D.WorkerStep(w)) && v < |d.ws|
    ensures |D.WorkerStepOf(d, w).ws| == |d.ws| && SamePhase(d.ws[v], D.WorkerStepOf(d, w).ws[v])
  {
    DT.WorkerStepFrame(d, w);
    if v == w {
      if d.ws[w].pc.WalAppend? { AppendRecord(d, w); } else { OwnRecord(d, w); }
    }
  }

  lemma AppendRecord(d: D.State, w: nat)
    requires D.Enabled(d, D.WorkerStep(w)) && d.ws[w].pc.WalAppend?
    ensures |D.WalAppendStep(d, w).ws| == |d.ws| && SamePhase(d.ws[w], D.WalAppendStep(d, w).ws[w])
  {
  }

  lemma OwnRecord(d: D.State, w: nat)
    requires D.Enabled(d, D.WorkerStep(w)) && !d.ws[w].pc.WalAppend?
    ensures |D.WorkerStepOf(d, w).ws| == |d.ws| && SamePhase(d.ws[w], D.WorkerStepOf(d, w).ws[w])
  {
    if d.ws[w].pc.WalPublish? || d.ws[w].pc.WalFull? { PublishRecord(d, w); }
  }

  lemma PublishRecord(d: D.State, w: nat)
    requires D.Enabled(d, D.WorkerStep(w)) && (d.ws[w].pc.WalPublish? || d.ws[w].pc.WalFull?)
    ensures |D.WorkerStepOf(d, w).ws| == |d.ws| && SamePhase(d.ws[w], D.WorkerStepOf(d, w).ws[w])
  {
  }

  // ---- The invariant over steps and runs ----------------------------------------------------

  lemma TxKeepsInv(s: State, w: nat, a: C.Action)
    requires Inv(s) && Enabled(s, Tx(w, a)) && Bounded(s) && Bounded(Apply(s, Tx(w, a)))
    ensures Inv(Apply(s, Tx(w, a)))
  {
    CS.StepKeepsInv(s.c, w, a);
    if Event(s.c, w, a).Some? { DS.StepKeepsInv(s.d, Event(s.c, w, a).value); }
    TxKeepsLink(s, w, a);
  }

  lemma StepKeepsInv(s: State, a: Action)
    requires Inv(s) && Enabled(s, a) && Bounded(s) && Bounded(Apply(s, a))
    ensures Inv(Apply(s, a))
  {
    match a {
      case Tx(w, ca) => TxKeepsInv(s, w, ca);
      case Pipe(e) =>
        DS.StepKeepsInv(s.d, e);
        PipeKeepsLink(s, e);
    }
  }

  lemma StepGrows(s: State, a: Action)
    requires CT.SlotsPending(s.c) && Enabled(s, a)
    ensures CT.SlotsPending(Apply(s, a).c) && CT.Grows(s.c, Apply(s, a).c)
  {
    if a.Tx? { CT.StepGrows(s.c, a.w, a.a); }
  }

  lemma {:induction false} RunGrows(s: State, trace: seq<Action>, s': State)
    requires CT.SlotsPending(s.c) && Reaches(s, trace, s')
    ensures CT.Grows(s.c, s'.c)
    decreases |trace|
  {
    if trace != [] {
      StepGrows(s, trace[0]);
      RunGrows(Apply(s, trace[0]), trace[1..], s');
    }
  }

  lemma {:induction false} RunKeepsInv(s: State, trace: seq<Action>, s': State)
    requires Inv(s) && CT.SlotsPending(s.c) && Reaches(s, trace, s') && Bounded(s')
    ensures Inv(s')
    decreases |trace|
  {
    if trace != [] {
      StepGrows(s, trace[0]);
      RunGrows(s, trace, s');
      RunGrows(Apply(s, trace[0]), trace[1..], s');
      StepKeepsInv(s, trace[0]);
      RunKeepsInv(Apply(s, trace[0]), trace[1..], s');
    }
  }

  // ---- Initial state ------------------------------------------------------------------------

  /** `init` is the loaded table, `wvals` the workers' values, `members` their loggers. */
  datatype Config = Config(init: seq<C.Value>, wvals: seq<C.Value>, epochDiff: nat, loggerOf: seq<nat>,
      members: seq<seq<nat>>)

  ghost predicate ValidConfig(g: Config) {
    C.ValidConfig(g.init, g.wvals) && D.ValidConfig(g.loggerOf, g.members) && |g.wvals| == |g.loggerOf|
  }

  function InitState(g: Config): State {
    State(C.InitState(g.init, g.wvals), D.InitState(g.epochDiff, g.loggerOf, g.members))
  }

  lemma InitInv(g: Config)
    requires ValidConfig(g)
    ensures Inv(InitState(g))
  {
    CS.InitInv(g.init, g.wvals);
    DS.InitInv(g.epochDiff, g.loggerOf, g.members);
  }

  ghost predicate Reachable(g: Config, s: State) {
    ValidConfig(g) && Bounded(s) && exists trace :: Reaches(InitState(g), trace, s)
  }

  lemma {:induction false} RunKeepsInit(s: State, trace: seq<Action>, s': State)
    requires Reaches(s, trace, s')
    ensures s'.c.init == s.c.init && s'.c.wvals == s.c.wvals
    decreases |trace|
  {
    if trace != [] { RunKeepsInit(Apply(s, trace[0]), trace[1..], s'); }
  }

  lemma ReachableInv(g: Config, s: State)
    requires Reachable(g, s)
    ensures Inv(s) && s.c.init == g.init && s.c.wvals == g.wvals
  {
    var trace :| Reaches(InitState(g), trace, s);
    InitInv(g);
    RunKeepsInv(InitState(g), trace, s);
    RunKeepsInit(InitState(g), trace, s);
  }

  // ---- Runs of the parts --------------------------------------------------------------------

  /** The steps of the commit protocol in a run. */
  function CommitTrace(trace: seq<Action>): seq<C.Label> {
    if trace == [] then []
    else CommitPart(trace[0]) + CommitTrace(trace[1..])
  }

  function CommitPart(a: Action): seq<C.Label> {
    if a.Tx? then [C.Label(a.w, a.a)] else []
  }

  lemma {:induction false} CommitRuns(s: State, trace: seq<Action>, s': State)
    requires Reaches(s, trace, s')
    ensures C.Reaches(s.c, CommitTrace(trace), s'.c)
    decreases |trace|
  {
    if trace != [] {
      CommitRuns(Apply(s, trace[0]), trace[1..], s');
      CommitPrepend(s, trace[0], CommitTrace(trace[1..]), s'.c);
    }
  }

  lemma CommitPrepend(s: State, a: Action, rest: seq<C.Label>, c': C.State)
    requires Enabled(s, a) && C.Reaches(Apply(s, a).c, rest, c')
    ensures C.Reaches(s.c, CommitPart(a) + rest, c')
  {
    var part := CommitPart(a);
    if part == [] {
      assert part + rest == rest;
    } else {
      assert (part + rest)[0] == part[0] && (part + rest)[1..] == rest;
    }
  }

  /** The steps of the pipeline in a run from s. */
  ghost function PipeTrace(s: State, trace: seq<Action>, s': State): seq<D.Action>
    requires Reaches(s, trace, s')
    decreases |trace|
  {
    if trace == [] then [] else PipePart(s, trace[0]) + PipeTrace(Apply(s, trace[0]), trace[1..], s')
  }

  function PipePart(s: State, a: Action): seq<D.Action>
    requires Enabled(s, a)
  {
    match a
    case Tx(w, ca) => if Event(s.c, w, ca).Some? then [Event(s.c, w, ca).value] else []
    case Pipe(e) => [e]
  }

  lemma {:induction false} PipeRuns(s: State, trace: seq<Action>, s': State)
    requires Reaches(s, trace, s')
    ensures D.Reaches(s.d, PipeTrace(s, trace, s'), s'.d)
    decreases |trace|
  {
    if trace != [] {
      var rest := PipeTrace(Apply(s, trace[0]), trace[1..], s');
      PipeRuns(Apply(s, trace[0]), trace[1..], s');
      PipePrepend(s, trace[0], rest, s'.d);
    }
  }

  lemma PipePrepend(s: State, a: Action, rest: seq<D.Action>, d': D.State)
    requires Enabled(s, a) && D.Reaches(Apply(s, a).d, rest, d')
    ensures D.Reaches(s.d, PipePart(s, a) + rest, d')
  {
    var part := PipePart(s, a);
    if part == [] {
      assert part + rest == rest;
    } else {
      assert (part + rest)[0] == part[0] && (part + rest)[1..] == rest;
    }
  }

  /** A run of the whole program is a run of the commit protocol and one of the pipeline, so what is
      proved of either holds of the program. */
  lemma PartsReachable(g: Config, s: State)
    requires Reachable(g, s)
    ensures CT.Reachable(g.init, g.wvals, s.c)
    ensures DT.Reachable(g.epochDiff, g.loggerOf, g.members, s.d)
  {
    var trace :| Reaches(InitState(g), trace, s);
    CommitRuns(InitState(g), trace, s);
    PipeRuns(InitState(g), trace, s);
    ReachableInv(g, s);
  }

  // ---- Nothing is blocked by the composition ------------------------------------------------

  /** Steps at which the code itself waits for its log: a buffer, the end of wal, the order of calls. */
  predicate Waits(a: C.Action) {
    a.Begin? || a.LogDone? || a.EpochWork? || a.LeaderWork? || a.Quit?
  }

  /** Every other step that the commit protocol can take, the pipeline takes part in. */
  lemma NeverBlocked(s: State, w: nat, a: C.Action)
    requires Inv(s) && Bounded(s) && C.Enabled(s.c, w, a) && !Waits(a)
    requires a.Next? && s.c.ws[w].pc.WriteTid? ==> Commits(s, w) + 1 < TID_LIMIT
    ensures Enabled(s, Tx(w, a))
  {
    assert LinkOk(s, w);
    assert D.WorkerIn(s.d, w);
    if a.Next? {
      if s.c.ws[w].pc.WriteTid? {
        WriteTidReady(s, w);
      } else if s.c.ws[w].pc.Validate? || s.c.ws[w].pc.EpochLoad? {
        WindowReady(s, w);
      } else {
        PhaseReady(s, w);
      }
    } else {
      LocalReady(s, w, a);
    }
  }

  /** Operations of a running transaction are no business of the pipeline. */
  lemma LocalReady(s: State, w: nat, a: C.Action)
    requires C.Enabled(s.c, w, a) && !Waits(a) && !a.Next?
    ensures Enabled(s, Tx(w, a))
  {
  }

  lemma WindowReady(s: State, w: nat)
    requires C.Enabled(s.c, w, C.Next) && D.WorkerIn(s.d, w) && PcLink(s.c, w, s.d.ws[w])
    requires s.c.ws[w].pc.Validate? || s.c.ws[w].pc.EpochLoad?
    ensures Enabled(s, Tx(w, C.Next))
  {
  }

  lemma PhaseReady(s: State, w: nat)
    requires C.Enabled(s.c, w, C.Next) && D.WorkerIn(s.d, w) && PcLink(s.c, w, s.d.ws[w])
    requires !s.c.ws[w].pc.WriteTid? && !s.c.ws[w].pc.Validate? && !s.c.ws[w].pc.EpochLoad?
    ensures Enabled(s, Tx(w, C.Next))
  {
    NextPhase(s.c, w);
  }

  lemma WriteTidReady(s: State, w: nat)
    requires Inv(s) && Bounded(s) && C.Enabled(s.c, w, C.Next) && s.c.ws[w].pc.WriteTid?
    requires Commits(s, w) + 1 < TID_LIMIT
    ensures NextEvent(s.c, w).Some? && D.Enabled(s.d, NextEvent(s.c, w).value)
  {
    assert LinkOk(s, w);
    WriteTidFits(s.c, w);
    var wk := s.c.ws[w];
    WalEnabled(s, w, CommitTid(wk.maxW, wk.maxR, wk.last, wk.localEpoch));
  }

  lemma WriteTidFits(c: C.State, w: nat)
    requires CI.Inv(c) && C.Bounded(c) && w < |c.ws| && c.ws[w].pc.WriteTid?
    requires C.Commits(c.log, c.ws[w].localEpoch) + 1 < TID_LIMIT
    ensures var wk := c.ws[w]; var ctid := CommitTid(wk.maxW, wk.maxR, wk.last, wk.localEpoch);
            && ctid.Valid() && !ctid.lock && |wk.writeSet| <= C.MAX_OPE
            && wk.slot < |c.log| && ctid.epoch == wk.localEpoch == c.log[wk.slot].epoch
  {
    assert CI.WorkerOk(c, w) && CI.SlotOk(c, w);
    CS.CommitTidAbove(c, w);
  }

  lemma WalEnabled(s: State, w: nat, ctid: TidWord)
    requires w < |s.c.ws| == |s.d.ws| == |s.c.wvals| && D.WorkerIn(s.d, w) && PcLink(s.c, w, s.d.ws[w])
    requires s.c.ws[w].pc.WriteTid? && ctid.Valid() && !ctid.lock && |s.c.ws[w].writeSet| <= C.MAX_OPE
    requires s.c.ws[w].slot < |s.c.log| && ctid.epoch == s.c.log[s.c.ws[w].slot].epoch
    ensures D.Enabled(s.d, D.WalBegin(w, ctid, s.c.ws[w].writeSet, s.c.wvals[w]))
  {
  }

  function Commits(s: State, w: nat): nat
    requires w < |s.c.ws|
  {
    C.Commits(s.c.log, s.c.ws[w].localEpoch)
  }
}
