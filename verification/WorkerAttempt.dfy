/** The operations that a worker's thread has listed are those that its read and write sets come from, and an
    attempt that reaches its commit phase after an abort has done the operations of the aborted one. */
module WorkerAttempts {
  import opened WorkerLoops
  import S = System
  import C = CommitModel
  import D = LogModel

  predicate Between(pc: C.Pc) {
    pc.Idle? || pc.EwStore? || pc.Scan?
  }

  predicate Operating(pc: C.Pc) {
    pc.Running? || pc.ReadLoad? || pc.ReadCopy?
  }

  /** The operation under way reads this key. */
  predicate Fetching(pc: C.Pc, key: nat) {
    (pc.ReadLoad? && pc.key == key) || (pc.ReadCopy? && pc.rkey == key)
  }

  /** The read and write sets are what the operations so far make of them. */
  ghost predicate DoneBy(wk: C.Worker, ops: seq<Op>) {
    && (forall k: nat :: k in wk.writeSet <==> WriteOp(k) in ops)
    && (forall k: nat :: C.InReadSet(wk.readSet, k) || Fetching(wk.pc, k) <==> ReadOp(k) in ops)
  }

  ghost predicate AttemptOk(wk: C.Worker, th: Thread) {
    if th.place.Run? then
      && !Between(wk.pc) && !wk.pc.Finished? && DoneBy(wk, th.ops)
      && (th.plan.Some? ==> th.ops <= th.plan.value)
      && (!Operating(wk.pc) ==> th.ops != [] && (th.plan.Some? ==> th.ops == th.plan.value))
    else Between(wk.pc) && th.ops == [] && wk.readSet == [] && wk.writeSet == []
  }

  ghost predicate AllAttempts(s: State) {
    |s.ts| == |s.c.ws| && forall w :: 0 <= w < |s.ts| ==> AttemptOk(s.c.ws[w], s.ts[w])
  }

  // ---- Sets ---------------------------------------------------------------------------------

  lemma {:induction false} InsertMembers(x: nat, ks: seq<nat>)
    ensures forall y :: y in C.Insert(x, ks) <==> y == x || y in ks
  {
    if ks != [] && x > ks[0] {
      InsertMembers(x, ks[1..]);
      assert forall y :: y in ks <==> y == ks[0] || y in ks[1..];
    }
  }

  lemma {:induction false} SortMembers(ks: seq<nat>)
    ensures forall y :: y in C.Sort(ks) <==> y in ks
  {
    if ks != [] {
      SortMembers(ks[1..]);
      InsertMembers(ks[0], C.Sort(ks[1..]));
      assert forall y :: y in ks <==> y == ks[0] || y in ks[1..];
    }
  }

  lemma OneMoreRead(rs: seq<C.ReadElement>, e: C.ReadElement, key: nat)
    ensures C.InReadSet(rs + [e], key) <==> C.InReadSet(rs, key) || e.key == key
  {
    if C.InReadSet(rs, key) {
      var i :| 0 <= i < |rs| && rs[i].key == key;
      assert (rs + [e])[i].key == key;
    }
    if e.key == key { assert (rs + [e])[|rs|].key == key; }
  }

  // ---- Steps --------------------------------------------------------------------------------

  /** A step changes the record of its worker only. */
  lemma OneMoves(c: C.State, w: nat, a: C.Action)
    requires C.Enabled(c, w, a)
    ensures var c' := C.Apply(c, w, a); |c'.ws| == |c.ws| && c'.ws == c.ws[w := c'.ws[w]]
  {
  }

  lemma CallKeeps(s: State, w: nat, a: C.Action)
    requires C.Enabled(s.c, w, a) && w < |s.ts| && Allowed(s, w, a) && !a.Next? && AttemptOk(s.c.ws[w], s.ts[w])
    ensures var c' := C.Apply(s.c, w, a); w < |c'.ws| && AttemptOk(c'.ws[w], Moved(s.c, w, s.ts[w], a))
  {
    if a.Commit? { SortMembers(s.c.ws[w].writeSet); }
  }

  lemma NextKeeps(c: C.State, w: nat, th: Thread)
    requires C.Enabled(c, w, C.Next) && AttemptOk(c.ws[w], th)
    ensures var c' := C.NextStep(c, w); w < |c'.ws| && AttemptOk(c'.ws[w], Ended(c, w, th))
  {
    if c.ws[w].pc.ReadCopy? {
      CopyKeeps(c, w, th);
    } else if Operating(c.ws[w].pc) || Between(c.ws[w].pc) {
      EarlyKeeps(c, w, th);
    } else {
      LateKeeps(c, w, th);
    }
  }

  lemma CopyKeeps(c: C.State, w: nat, th: Thread)
    requires C.Enabled(c, w, C.Next) && AttemptOk(c.ws[w], th) && c.ws[w].pc.ReadCopy?
    ensures var c' := C.ReadCopyStep(c, w); w < |c'.ws| && AttemptOk(c'.ws[w], th)
  {
    var pc := c.ws[w].pc;
    var e := C.ReadElement(pc.rkey, pc.buf, pc.expected, pc.ver);
    forall k: nat ensures C.InReadSet(c.ws[w].readSet + [e], k) <==> C.InReadSet(c.ws[w].readSet, k) || pc.rkey == k {
      OneMoreRead(c.ws[w].readSet, e, k);
    }
  }

  lemma EarlyKeeps(c: C.State, w: nat, th: Thread)
    requires C.Enabled(c, w, C.Next) && AttemptOk(c.ws[w], th)
    requires c.ws[w].pc.ReadLoad? || c.ws[w].pc.Running? || Between(c.ws[w].pc)
    ensures var c' := C.NextStep(c, w); w < |c'.ws| && AttemptOk(c'.ws[w], Ended(c, w, th))
  {
  }

  lemma LateKeeps(c: C.State, w: nat, th: Thread)
    requires C.Enabled(c, w, C.Next) && AttemptOk(c.ws[w], th) && !Operating(c.ws[w].pc) && !Between(c.ws[w].pc)
    ensures var c' := C.NextStep(c, w); w < |c'.ws| && AttemptOk(c'.ws[w], Ended(c, w, th))
  {
  }

  lemma StepKeepsAttempts(s: State, a: Action)
    requires Enabled(s, a) && AllAttempts(s)
    ensures AllAttempts(Apply(s, a))
  {
    var s' := Apply(s, a);
    if a.Tx? {
      OneMoves(s.c, a.w, a.a);
      assert AttemptOk(s.c.ws[a.w], s.ts[a.w]);
      if a.a.Next? { NextKeeps(s.c, a.w, s.ts[a.w]); } else { CallKeeps(s, a.w, a.a); }
    }
    forall w | 0 <= w < |s'.ts| ensures AttemptOk(s'.c.ws[w], s'.ts[w]) { assert AttemptOk(s.c.ws[w], s.ts[w]); }
  }

  lemma {:induction false} RunKeepsAttempts(s: State, trace: seq<Action>, s': State)
    requires Reaches(s, trace, s') && AllAttempts(s)
    ensures AllAttempts(s')
    decreases |trace|
  {
    if trace != [] {
      StepKeepsAttempts(s, trace[0]);
      RunKeepsAttempts(Apply(s, trace[0]), trace[1..], s');
    }
  }

  /** In every run as coded: a worker's read and write sets are what the operations of its attempt make of them,
      and from its commit phase on a second attempt has done just those of the one before. */
  lemma AttemptsAsPlanned(g: S.Config, trace: seq<Action>, s: State, w: nat)
    requires S.ValidConfig(g) && Reaches(InitState(g), trace, s) && w < |s.c.ws|
    ensures w < |s.ts|
    ensures s.ts[w].place.Run? ==> DoneBy(s.c.ws[w], s.ts[w].ops)
    ensures s.ts[w].place.Run? && !Operating(s.c.ws[w].pc) && s.ts[w].plan.Some? ==> s.ts[w].ops == s.ts[w].plan.value
    ensures !s.ts[w].place.Run? ==> Between(s.c.ws[w].pc)
  {
    RunKeepsAttempts(InitState(g), trace, s);
    assert AttemptOk(s.c.ws[w], s.ts[w]);
  }
}
