/** What a restart finds: replaying the logs up to a durable epoch gives the table after a prefix of the
    serial order. Combines the commit protocol, the loggers and the fold into the durable epoch. */
module Recovery {
  import opened TidWords
  import opened System
  import C = CommitModel
  import CL = CommitLog
  import CI = CommitInv
  import CT = CommitTheorems
  import D = LogModel
  import DI = LogInv
  import DT = LogTheorems
  import FC = FirstCommit

  // ---- Reading the log files ----------------------------------------------------------------

  function FileRecords(f: seq<D.Block>): seq<D.Record> {
    if f == [] then [] else FileRecords(f[..|f| - 1]) + D.PushRecords(f[|f| - 1].pushes)
  }

  /** The fsynced part of a log file. */
  function Disk(lg: D.Logger): seq<D.Block> {
    if lg.synced <= |lg.file| then lg.file[..lg.synced] else lg.file
  }

  /** The records of all loggers that survive a crash. */
  function DiskRecords(ls: seq<D.Logger>): seq<D.Record> {
    if ls == [] then [] else DiskRecords(ls[..|ls| - 1]) + FileRecords(Disk(ls[|ls| - 1]))
  }

  /** Replay for one key: among the records of epochs up to e, the one with the largest TID word. */
  function Newest(rs: seq<D.Record>, e: nat, key: nat): D.Option<D.Record> {
    if rs == [] then D.None
    else
      var best := Newest(rs[..|rs| - 1], e, key);
      var r := rs[|rs| - 1];
      if r.key == key && r.tid.epoch <= e && (best.None? || Less(best.value.tid, r.tid)) then D.Some(r) else best
  }

  /** The table that replaying the records up to epoch e over the initial table gives. */
  function Replay(init: seq<C.Value>, rs: seq<D.Record>, e: nat): seq<C.Value> {
    seq(|init|, x requires 0 <= x < |init| =>
      match Newest(rs, e, x) { case None => init[x] case Some(r) => r.val })
  }

  // ---- Membership ---------------------------------------------------------------------------

  lemma {:induction false} InPushRecords(ps: seq<D.Push>, r: D.Record)
    ensures r in D.PushRecords(ps) <==> exists p :: p in ps && r in p
  {
    if ps != [] {
      var n := |ps| - 1;
      InPushRecords(ps[..n], r);
      assert forall p :: p in ps <==> p in ps[..n] || p == ps[n];
    }
  }

  lemma {:induction false} InFileRecords(f: seq<D.Block>, r: D.Record)
    ensures r in FileRecords(f) <==> exists b :: b in f && exists p :: p in b.pushes && r in p
  {
    if f != [] {
      var n := |f| - 1;
      InFileRecords(f[..n], r);
      InPushRecords(f[n].pushes, r);
      assert forall b :: b in f <==> b in f[..n] || b == f[n];
    }
  }

  lemma {:induction false} FromDisk(ls: seq<D.Logger>, r: D.Record) returns (l: nat)
    requires r in DiskRecords(ls)
    ensures l < |ls| && r in FileRecords(Disk(ls[l]))
  {
    var n := |ls| - 1;
    if r in DiskRecords(ls[..n]) { l := FromDisk(ls[..n], r); } else { l := n; }
  }

  lemma {:induction false} OntoDisk(ls: seq<D.Logger>, l: nat, r: D.Record)
    requires l < |ls| && r in FileRecords(Disk(ls[l]))
    ensures r in DiskRecords(ls)
  {
    if l < |ls| - 1 { OntoDisk(ls[..|ls| - 1], l, r); }
  }

  lemma {:induction false} InFileOf(f: seq<D.Block>, w: nat, p: D.Push)
    ensures p in DI.FileOf(f, w) <==> exists b :: b in f && b.owner == w && p in b.pushes
  {
    if f != [] {
      var n := |f| - 1;
      InFileOf(f[..n], w, p);
      assert forall b :: b in f <==> b in f[..n] || b == f[n];
    }
  }

  lemma {:induction false} InPushesOf(log: seq<C.Entry>, w: nat, p: D.Push)
    ensures p in PushesOf(log, w) <==>
            exists j :: 0 <= j < |log| && log[j].worker == w && log[j].st.Committed? && log[j].wset != [] &&
                        p == D.Records(log[j].st.ctid, log[j].wset, log[j].val)
  {
    if log != [] {
      var n := |log| - 1;
      InPushesOf(log[..n], w, p);
      assert forall j :: 0 <= j < n ==> log[..n][j] == log[j];
    }
  }

  /** The record that committed transaction j wrote for key x. */
  function RecordOf(log: seq<C.Entry>, j: nat, x: nat): D.Record
    requires j < |log| && log[j].st.Committed?
  {
    D.Record(log[j].st.ctid, x, log[j].val)
  }

  /** A record on disk was written by a committed transaction. */
  lemma DiskIsCommitted(s: State, r: D.Record)
    requires Inv(s) && r in DiskRecords(s.d.ls)
    ensures exists j :: 0 <= j < |s.c.log| && s.c.log[j].st.Committed? && r.key in s.c.log[j].wset &&
                        r == RecordOf(s.c.log, j, r.key)
  {
    var l, b, j := DiskWriter(s, r);
  }

  /** It lies in a block of that transaction's worker. */
  lemma DiskWriter(s: State, r: D.Record) returns (l: nat, b: D.Block, j: nat)
    requires Inv(s) && r in DiskRecords(s.d.ls)
    ensures l < |s.d.ls| && b in Disk(s.d.ls[l])
    ensures j < |s.c.log| && s.c.log[j].worker == b.owner && s.c.log[j].st.Committed? && r.key in s.c.log[j].wset
    ensures r == RecordOf(s.c.log, j, r.key)
  {
    l := FromDisk(s.d.ls, r);
    InFileRecords(Disk(s.d.ls[l]), r);
    b :| b in Disk(s.d.ls[l]) && exists p :: p in b.pushes && r in p;
    var p :| p in b.pushes && r in p;
    var w := b.owner;
    BlockOwner(s, l, b);
    InFileOf(Disk(s.d.ls[l]), w, p);
    DiskInHistory(s, w);
    assert p in s.d.ws[w].hist;
    assert LinkOk(s, w);
    InPushesOf(s.c.log, w, p);
    j :| 0 <= j < |s.c.log| && s.c.log[j].worker == w && s.c.log[j].st.Committed? && s.c.log[j].wset != [] &&
         p == D.Records(s.c.log[j].st.ctid, s.c.log[j].wset, s.c.log[j].val);
  }

  /** A block belongs to a worker of the logger that wrote it. */
  lemma BlockOwner(s: State, l: nat, b: D.Block)
    requires Inv(s) && l < |s.d.ls| && b in Disk(s.d.ls[l])
    ensures b.owner < |s.d.ws| && s.d.loggerOf[b.owner] == l
  {
    assert DI.LoggerOk(s.d, l);
    var i :| 0 <= i < |Disk(s.d.ls[l])| && Disk(s.d.ls[l])[i] == b;
    assert s.d.ls[l].file[i] == b;
  }

  /** What is on disk of a worker is the beginning of what it pushed. */
  lemma DiskInHistory(s: State, w: nat)
    requires Inv(s) && w < |s.d.ws|
    ensures DT.OnDisk(s.d.ls[s.d.loggerOf[w]], w) <= s.d.ws[w].hist
  {
    var lg := s.d.ls[s.d.loggerOf[w]];
    assert DI.StreamOk(s.d, w) && DI.LoggerOk(s.d, s.d.loggerOf[w]);
    DT.FileSplit(lg.file, lg.synced, w);
    Prefix(s.d.ws[w].hist, DT.OnDisk(lg, w), DI.FileOf(lg.file[lg.synced..], w), DI.BufsOf(DI.Batch(lg), w),
           DI.BufsOf(lg.queue, w), DI.CurOf(s.d.ws[w]));
  }

  lemma Prefix(h: seq<D.Push>, f: seq<D.Push>, u: seq<D.Push>, b: seq<D.Push>, q: seq<D.Push>, c: seq<D.Push>)
    requires h == f + u + b + q + c
    ensures f <= h
  {
    assert h == f + (u + b + q + c);
  }

  /** The records of a push on disk are among the records on disk. */
  lemma PushedOnDisk(s: State, w: nat, j: nat, x: nat)
    requires w < |s.d.loggerOf| && s.d.loggerOf[w] < |s.d.ls|
    requires j < |s.c.log| && s.c.log[j].st.Committed? && x in s.c.log[j].wset
    requires D.Records(s.c.log[j].st.ctid, s.c.log[j].wset, s.c.log[j].val) in DT.OnDisk(s.d.ls[s.d.loggerOf[w]], w)
    ensures RecordOf(s.c.log, j, x) in DiskRecords(s.d.ls)
  {
    var l := s.d.loggerOf[w];
    var p := D.Records(s.c.log[j].st.ctid, s.c.log[j].wset, s.c.log[j].val);
    var i :| 0 <= i < |s.c.log[j].wset| && s.c.log[j].wset[i] == x;
    assert p[i] == RecordOf(s.c.log, j, x);
    InFileOf(Disk(s.d.ls[l]), w, p);
    var b :| b in Disk(s.d.ls[l]) && b.owner == w && p in b.pushes;
    InFileRecords(Disk(s.d.ls[l]), p[i]);
    OntoDisk(s.d.ls, l, p[i]);
  }

  // ---- Replay -------------------------------------------------------------------------------

  lemma {:induction false} NewestIsNewest(rs: seq<D.Record>, e: nat, key: nat)
    ensures match Newest(rs, e, key) {
              case None => forall r :: r in rs && r.key == key ==> r.tid.epoch > e
              case Some(b) =>
                && b in rs && b.key == key && b.tid.epoch <= e
                && forall r :: r in rs && r.key == key && r.tid.epoch <= e ==> !Less(b.tid, r.tid)
            }
  {
    if rs != [] {
      var n := |rs| - 1;
      NewestIsNewest(rs[..n], e, key);
      assert forall r :: r in rs <==> r in rs[..n] || r == rs[n];
    }
  }

  /** The epochs up to e are decided and on disk. */
  ghost predicate Complete(s: State, e: nat) {
    && (forall j :: 0 <= j < |s.c.log| && s.c.log[j].epoch <= e ==> !s.c.log[j].st.Pending?)
    && (forall j, x ::
          0 <= j < |s.c.log| && s.c.log[j].epoch <= e && s.c.log[j].st.Committed? && x in s.c.log[j].wset ==>
            RecordOf(s.c.log, j, x) in DiskRecords(s.d.ls))
  }

  /** The epochs up to e are decided; rs are records of committed transactions, all of those epochs among
      them. */
  ghost predicate Holds(s: State, rs: seq<D.Record>, e: nat) {
    && (forall j :: 0 <= j < |s.c.log| && s.c.log[j].epoch <= e ==> !s.c.log[j].st.Pending?)
    && (forall r :: r in rs ==> OfCommitted(s.c, r))
    && (forall j, x ::
          0 <= j < |s.c.log| && s.c.log[j].epoch <= e && s.c.log[j].st.Committed? && x in s.c.log[j].wset ==>
            RecordOf(s.c.log, j, x) in rs)
  }

  ghost predicate OfCommitted(c: C.State, r: D.Record) {
    exists j :: 0 <= j < |c.log| && c.log[j].st.Committed? && r.key in c.log[j].wset && r == RecordOf(c.log, j, r.key)
  }

  /** Replay of one key finds its last writer in the durable prefix. */
  lemma ReplayKey(s: State, rs: seq<D.Record>, e: nat, x: nat)
    requires Inv(s) && Holds(s, rs, e) && x < |s.c.init|
    requires forall j :: 0 <= j < |s.c.log| ==> (s.c.log[j].epoch <= e <==> j < CT.PrefixLength(s.c.log, e))
    ensures Replay(s.c.init, rs, e)[x] == CT.Serial(s.c.init, s.c.log, CT.PrefixLength(s.c.log, e))[x]
  {
    var log := s.c.log;
    var n := CT.PrefixLength(log, e);
    var p := CL.LastWriter(log, n, x);
    CT.SerialValue(s.c.init, log, n, x);
    if p >= 0 { LastWriterNewest(s, rs, e, x, p); } else { NothingNewest(s, rs, e, x); }
  }

  /** Nobody wrote x in the prefix: its records, if any, are of later epochs. */
  lemma NothingNewest(s: State, rs: seq<D.Record>, e: nat, x: nat)
    requires Inv(s) && Holds(s, rs, e) && CL.LastWriter(s.c.log, CT.PrefixLength(s.c.log, e), x) < 0
    requires forall j :: 0 <= j < |s.c.log| ==> (s.c.log[j].epoch <= e <==> j < CT.PrefixLength(s.c.log, e))
    ensures Newest(rs, e, x).None?
  {
    NewestIsNewest(rs, e, x);
    if Newest(rs, e, x).Some? {
      var j := NewestWriter(s, rs, e, x);
      CL.LastWriterIsLast(s.c.log, CT.PrefixLength(s.c.log, e), x, j);
    }
  }

  /** The newest record of x was written by a transaction of the prefix. */
  lemma NewestWriter(s: State, rs: seq<D.Record>, e: nat, x: nat) returns (j: nat)
    requires Inv(s) && Holds(s, rs, e) && Newest(rs, e, x).Some?
    ensures j < |s.c.log| && s.c.log[j].st.Committed? && x in s.c.log[j].wset && s.c.log[j].epoch <= e
    ensures Newest(rs, e, x).value == RecordOf(s.c.log, j, x)
  {
    NewestIsNewest(rs, e, x);
    var b := Newest(rs, e, x).value;
    assert OfCommitted(s.c, b);
    j :| 0 <= j < |s.c.log| && s.c.log[j].st.Committed? && b.key in s.c.log[j].wset && b == RecordOf(s.c.log, j, b.key);
    assert CL.EntryOk(s.c.init, s.c.log, j);
  }

  /** Of two committed writers of a key the later one has the larger TID word. */
  lemma LaterIsGreater(c: C.State, x: nat, j: nat, p: nat)
    requires CI.Inv(c) && j < p < |c.log| && c.log[j].st.Committed? && c.log[p].st.Committed?
    requires x in c.log[j].wset && x in c.log[p].wset
    ensures Less(c.log[j].st.ctid, c.log[p].st.ctid)
  {
    assert CL.EntryOk(c.init, c.log, p) && CL.EntryOk(c.init, c.log, j);
    CL.VersionsIncrease(c.init, c.log, x, j, p);
    LessIsLexicographic(c.log[j].st.ctid, c.log[p].st.ctid);
  }

  /** Nothing is newer than the newest record. */
  lemma NotNewer(rs: seq<D.Record>, e: nat, r: D.Record)
    requires r in rs && r.tid.epoch <= e
    ensures Newest(rs, e, r.key).Some? && !Less(Newest(rs, e, r.key).value.tid, r.tid)
  {
    NewestIsNewest(rs, e, r.key);
  }

  /** The last writer p of x in the prefix wrote the newest record of x. */
  lemma LastWriterNewest(s: State, rs: seq<D.Record>, e: nat, x: nat, p: nat)
    requires Inv(s) && Holds(s, rs, e)
    requires p == CL.LastWriter(s.c.log, CT.PrefixLength(s.c.log, e), x) && s.c.log[p].st.Committed?
    requires forall j :: 0 <= j < |s.c.log| ==> (s.c.log[j].epoch <= e <==> j < CT.PrefixLength(s.c.log, e))
    ensures Newest(rs, e, x) == D.Some(RecordOf(s.c.log, p, x))
  {
    assert RecordOf(s.c.log, p, x) in rs;
    CommittedEpoch(s.c, p);
    NotNewer(rs, e, RecordOf(s.c.log, p, x));
    var j := NewestWriter(s, rs, e, x);
    WroteLast(s.c, CT.PrefixLength(s.c.log, e), x, j, p);
  }

  /** A writer of the prefix whose TID word is not below the last writer's is the last writer. */
  lemma WroteLast(c: C.State, n: nat, x: nat, j: nat, p: nat)
    requires CI.Inv(c) && j < n <= |c.log| && p == CL.LastWriter(c.log, n, x)
    requires c.log[j].st.Committed? && c.log[p].st.Committed?
    requires x in c.log[j].wset && !Less(c.log[j].st.ctid, c.log[p].st.ctid)
    ensures j == p
  {
    CL.LastWriterIsLast(c.log, n, x, j);
    if j < p { LaterIsGreater(c, x, j, p); }
  }

  lemma CommittedEpoch(c: C.State, j: nat)
    requires CI.Inv(c) && j < |c.log| && c.log[j].st.Committed?
    ensures c.log[j].st.ctid.epoch == c.log[j].epoch
  {
    assert CL.EntryOk(c.init, c.log, j);
  }

  lemma EpochsInOrder(c: C.State, e: nat)
    requires CI.Inv(c)
    ensures forall j :: 0 <= j < |c.log| ==> (c.log[j].epoch <= e <==> j < CT.PrefixLength(c.log, e))
  {
    forall i, j | 0 <= i <= j < |c.log| ensures c.log[i].epoch <= c.log[j].epoch {
      assert CL.EntryOk(c.init, c.log, j);
    }
    CT.PrefixOf(c.log, e);
  }

  /** Replaying records of committed transactions, those of epochs up to e among them, gives the table after
      the transactions of epochs up to e, run one after the other in the order of their serial points. */
  lemma ReplayHeld(s: State, rs: seq<D.Record>, e: nat)
    requires Inv(s) && Holds(s, rs, e)
    ensures Replay(s.c.init, rs, e) == CT.Serial(s.c.init, s.c.log, CT.PrefixLength(s.c.log, e))
  {
    EpochsInOrder(s.c, e);
    var n := CT.PrefixLength(s.c.log, e);
    forall x | 0 <= x < |s.c.init| ensures Replay(s.c.init, rs, e)[x] == CT.Serial(s.c.init, s.c.log, n)[x] {
      ReplayKey(s, rs, e, x);
    }
  }

  lemma DiskHolds(s: State, e: nat)
    requires Inv(s) && Complete(s, e)
    ensures Holds(s, DiskRecords(s.d.ls), e)
  {
    forall r | r in DiskRecords(s.d.ls) ensures OfCommitted(s.c, r) { DiskIsCommitted(s, r); }
  }

  /** When the epochs up to e are on disk, replay finds the serial prefix. */
  lemma ReplayComplete(s: State, e: nat)
    requires Inv(s) && Complete(s, e)
    ensures Recovered(s, e)
  {
    EpochsInOrder(s.c, e);
    DiskHolds(s, e);
    ReplayHeld(s, DiskRecords(s.d.ls), e);
  }

  /** Replay of the epochs up to e gives the serial state after them, which is a prefix of the serial
      order in which every transaction is decided. */
  ghost predicate Recovered(s: State, e: nat) {
    var n := CT.PrefixLength(s.c.log, e);
    && Replay(s.c.init, DiskRecords(s.d.ls), e) == CT.Serial(s.c.init, s.c.log, n)
    && (forall j :: 0 <= j < |s.c.log| ==> (s.c.log[j].epoch <= e <==> j < n))
    && (forall j :: 0 <= j < n ==> !s.c.log[j].st.Pending?)
  }

  // ---- Recovery while the program runs ------------------------------------------------------

  /** No logger ever stored a bound after a scan that skipped a worker without CTIDW. */
  ghost predicate NeverBlind(s: State) {
    forall l :: 0 <= l < |s.d.ls| ==> !s.d.ls[l].blind
  }

  /** What worker w has pushed and is not on disk, what it is pushing, and the transaction it is validating
      all lie above d. */
  ghost predicate WorkerKept(d: D.State, w: nat, e: nat)
    requires D.WorkerIn(d, w) && |d.ws| == |d.loggerOf|
  {
    && DT.DurableUpTo(d, w, e)
    && (Underway(d.ws[w]) != [] ==> DI.PushAbove(d.ws[w].pc.push, e))
    && (d.ws[w].pc.Window? ==> d.ws[w].pc.epoch > e)
  }

  ghost predicate Kept(s: State, e: nat) {
    |s.d.ws| == |s.d.loggerOf| && forall w :: 0 <= w < |s.d.ws| ==> D.WorkerIn(s.d, w) && WorkerKept(s.d, w, e)
  }

  /** Then a committed write of an epoch up to e is on disk. */
  lemma CommittedOnDisk(s: State, e: nat, j: nat, x: nat)
    requires Inv(s) && Kept(s, e)
    requires j < |s.c.log| && s.c.log[j].st.Committed? && x in s.c.log[j].wset && s.c.log[j].epoch <= e
    ensures RecordOf(s.c.log, j, x) in DiskRecords(s.d.ls)
  {
    var w := s.c.log[j].worker;
    assert CI.PendingOk(s.c, j) && LinkOk(s, w) && CL.EntryOk(s.c.init, s.c.log, j);
    var p := D.Records(s.c.log[j].st.ctid, s.c.log[j].wset, s.c.log[j].val);
    InPushesOf(s.c.log, w, p);
    var i :| 0 <= i < |s.c.log[j].wset| && s.c.log[j].wset[i] == x;
    assert p[i] == RecordOf(s.c.log, j, x) && p[i].tid.epoch <= e;
    assert WorkerKept(s.d, w, e);
    assert p in s.d.ws[w].hist;
    InPrefix(s.d.ws[w].hist, DT.OnDisk(s.d.ls[s.d.loggerOf[w]], w), e, p);
    PushedOnDisk(s, w, j, x);
  }

  lemma InPrefix(h: seq<D.Push>, disk: seq<D.Push>, d: nat, p: D.Push)
    requires disk <= h && DT.AllAbove(h[|disk|..], d) && p in h
    ensures p in disk || DI.PushAbove(p, d)
  {
    var n :| 0 <= n < |h| && h[n] == p;
    if n >= |disk| { assert h[|disk|..][n - |disk|] == p; }
  }

  /** And a transaction still undecided lies above e. */
  lemma PendingAbove(s: State, e: nat, j: nat)
    requires Inv(s) && Kept(s, e) && j < |s.c.log| && s.c.log[j].st.Pending?
    ensures s.c.log[j].epoch > e
  {
    var w := s.c.log[j].worker;
    assert CI.PendingOk(s.c, j) && CI.WorkerOk(s.c, w) && LinkOk(s, w);
    assert s.d.ws[w].pc.Window? && s.d.ws[w].pc.epoch == s.c.log[j].epoch;
    assert WorkerKept(s.d, w, e);
  }

  lemma KeptComplete(s: State, d: nat, e: nat)
    requires Inv(s) && Kept(s, d) && e <= d
    ensures Complete(s, e)
  {
    forall j | 0 <= j < |s.c.log| && s.c.log[j].epoch <= e ensures !s.c.log[j].st.Pending? {
      if s.c.log[j].st.Pending? { PendingAbove(s, d, j); }
    }
    forall j, x | 0 <= j < |s.c.log| && s.c.log[j].epoch <= e && s.c.log[j].st.Committed? && x in s.c.log[j].wset
      ensures RecordOf(s.c.log, j, x) in DiskRecords(s.d.ls)
    {
      CommittedOnDisk(s, d, j, x);
    }
  }

  /** Without a blind logger everything up to DurableEpoch is kept. */
  lemma NeverBlindKept(s: State)
    requires Inv(s) && NeverBlind(s)
    ensures Kept(s, s.d.durable)
  {
    forall w | 0 <= w < |s.d.ws| ensures D.WorkerIn(s.d, w) && WorkerKept(s.d, w, s.d.durable) {
      UnblindKept(s.d, w);
    }
  }

  lemma UnblindKept(d: D.State, w: nat)
    requires DI.Inv(d) && w < |d.ws| && forall l :: 0 <= l < |d.ls| ==> !d.ls[l].blind
    ensures D.WorkerIn(d, w) && WorkerKept(d, w, d.durable)
  {
    assert D.WorkerIn(d, w);
    assert d.durable <= d.ls[d.loggerOf[w]].durable;
    DT.LoggerDurable(d, w);
    LessDurable(d, w, d.ls[d.loggerOf[w]].durable, d.durable);
    if Underway(d.ws[w]) != [] { DT.PushLate(d, w); }
    if d.ws[w].pc.Window? { DT.WindowLate(d, w); }
  }

  lemma LessDurable(d: D.State, w: nat, e: nat, f: nat)
    requires D.WorkerIn(d, w) && |d.ws| == |d.loggerOf| && DT.DurableUpTo(d, w, e) && f <= e
    ensures DT.DurableUpTo(d, w, f)
  {
    var rest := d.ws[w].hist[|DT.OnDisk(d.ls[d.loggerOf[w]], w)|..];
    forall i | 0 <= i < |rest| ensures DI.PushAbove(rest[i], f) { assert DI.PushAbove(rest[i], e); }
  }

  /** Recovery. In every reachable state whose loggers never skipped a worker, for every epoch e up to
      DurableEpoch (the epoch on disk among them), replaying the fsynced records of epochs up to e gives
      exactly the table after the transactions of epochs up to e, run one after the other in the order
      of their serial points; and that prefix is settled for good. */
  lemma RecoveryIsSerialPrefix(g: Config, s: State, e: nat)
    requires Reachable(g, s) && NeverBlind(s) && e <= s.d.durable
    ensures s.c.init == g.init && Recovered(s, e) && s.d.pepoch <= s.d.durable
  {
    ReachableInv(g, s);
    NeverBlindKept(s);
    KeptComplete(s, s.d.durable, e);
    ReplayComplete(s, e);
  }

  /** With one worker for each logger recovery is correct in every reachable state. */
  lemma RecoveryOneWorkerEach(g: Config, s: State, e: nat)
    requires Reachable(g, s) && FC.OneWorkerEach(g.members) && e <= s.d.durable
    ensures s.c.init == g.init && Recovered(s, e)
  {
    PartsReachable(g, s);
    FC.OneWorkerNeverBlind(g.epochDiff, g.loggerOf, g.members, s.d);
    RecoveryIsSerialPrefix(g, s, e);
  }

  /** Once every worker has stored a real CTIDW, with no logger blind and no scan under way that skipped
      somebody, recovery is right in that state and in every later one. */
  lemma RecoveryOnceSettled(g: Config, s: State, trace: seq<Action>, s': State, e: nat)
    requires Reachable(g, s) && (forall l :: 0 <= l < |s.d.ls| ==> FC.Settled(s.d, l))
    requires Reaches(s, trace, s') && Bounded(s') && e <= s'.d.durable
    ensures s'.c.init == g.init && Recovered(s', e)
  {
    StillReachable(g, s, trace, s');
    SettledNeverBlind(g, s, trace, s');
    RecoveryIsSerialPrefix(g, s', e);
  }

  lemma SettledNeverBlind(g: Config, s: State, trace: seq<Action>, s': State)
    requires Reachable(g, s) && Reachable(g, s') && Reaches(s, trace, s')
    requires forall l :: 0 <= l < |s.d.ls| ==> FC.Settled(s.d, l)
    ensures NeverBlind(s')
  {
    ReachableInv(g, s);
    ReachableInv(g, s');
    PipeRuns(s, trace, s');
    PipeNeverBlind(s.d, PipeTrace(s, trace, s'), s'.d);
  }

  lemma PipeNeverBlind(d: D.State, trace: seq<D.Action>, d': D.State)
    requires DI.Inv(d) && D.Reaches(d, trace, d') && D.Bounded(d')
    requires forall l :: 0 <= l < |d.ls| ==> FC.Settled(d, l)
    ensures forall l :: 0 <= l < |d'.ls| ==> !d'.ls[l].blind
  {
    DT.RunGrows(d, trace, d');
    forall l | 0 <= l < |d'.ls| ensures !d'.ls[l].blind { FC.SettledStays(d, trace, d', l); }
  }

  lemma StillReachable(g: Config, s: State, trace: seq<Action>, s': State)
    requires Reachable(g, s) && Reaches(s, trace, s') && Bounded(s')
    ensures Reachable(g, s')
  {
    var before :| Reaches(InitState(g), before, s);
    RunOn(InitState(g), before, s, trace, s');
  }

  lemma {:induction false} RunOn(s: State, before: seq<Action>, t: State, trace: seq<Action>, u: State)
    requires Reaches(s, before, t) && Reaches(t, trace, u)
    ensures Reaches(s, before + trace, u)
    decreases |before|
  {
    if before == [] {
      assert before + trace == trace;
    } else {
      RunOn(Apply(s, before[0]), before[1..], t, trace, u);
      OneApart(before, trace);
      StepFirst(s, before + trace, before[1..] + trace, u);
    }
  }

  lemma OneApart(a: seq<Action>, b: seq<Action>)
    requires a != []
    ensures (a + b)[0] == a[0] && (a + b)[1..] == a[1..] + b
  {
  }

  lemma StepFirst(s: State, trace: seq<Action>, rest: seq<Action>, u: State)
    requires trace != [] && Enabled(s, trace[0]) && trace[1..] == rest && Reaches(Apply(s, trace[0]), rest, u)
    ensures Reaches(s, trace, u)
  {
  }

  // ---- Recovery after a shutdown ------------------------------------------------------------

  /** Every logger has left its loop. */
  ghost predicate AllEnded(s: State) {
    forall l :: 0 <= l < |s.d.ls| ==> DI.Ended(s.d.ls[l].pc)
  }

  /** When its logger has left its loop, what a worker committed is on disk: the writes of each of its
      transactions once, in one piece, and in the order in which they committed. */
  lemma ShutdownWritesAll(g: Config, s: State, w: nat)
    requires Reachable(g, s) && w < |s.d.ws| && D.WorkerIn(s.d, w) && DI.Ended(s.d.ls[s.d.loggerOf[w]].pc)
    ensures DT.OnDisk(s.d.ls[s.d.loggerOf[w]], w) == PushesOf(s.c.log, w)
    ensures w < |s.c.ws| && s.c.ws[w].pc.Finished?
  {
    ReachableInv(g, s);
    PartsReachable(g, s);
    DT.ShutdownComplete(g.epochDiff, g.loggerOf, g.members, s.d, w);
    EndedStopped(s.d, w);
    assert LinkOk(s, w);
  }

  /** The order in which they committed is that of their TIDs, which strictly increase. */
  ghost predicate Increasing(ps: seq<D.Push>) {
    forall i, j :: 0 <= i < j < |ps| ==> PushBefore(ps[i], ps[j])
  }

  lemma {:induction false} PushesIncrease(c: C.State, n: nat, w: nat)
    requires CI.Inv(c) && n <= |c.log| && w < |c.ws|
    ensures Increasing(PushesOf(c.log[..n], w))
  {
    if n > 0 {
      assert c.log[..n][..n - 1] == c.log[..n - 1];
      PushesIncrease(c, n - 1, w);
      var ps := PushesOf(c.log[..n - 1], w);
      if PushesOf(c.log[..n], w) != ps {
        var last := D.Records(c.log[n - 1].st.ctid, c.log[n - 1].wset, c.log[n - 1].val);
        assert PushesOf(c.log[..n], w) == ps + [last];
        forall p | p in ps ensures PushBefore(p, last) { LastPushLatest(c, n - 1, w, p); }
      }
    }
  }

  ghost predicate PushBefore(p: D.Push, q: D.Push) {
    forall i, j :: 0 <= i < |p| && 0 <= j < |q| ==> Before(p[i].tid, q[j].tid)
  }

  lemma LastPushLatest(c: C.State, n: nat, w: nat, p: D.Push)
    requires CI.Inv(c) && n < |c.log| && c.log[n].worker == w < |c.ws| && c.log[n].st.Committed?
    requires p in PushesOf(c.log[..n], w)
    ensures PushBefore(p, D.Records(c.log[n].st.ctid, c.log[n].wset, c.log[n].val))
  {
    InPushesOf(c.log[..n], w, p);
    var i :| 0 <= i < n && c.log[..n][i].worker == w && c.log[..n][i].st.Committed? &&
             p == D.Records(c.log[..n][i].st.ctid, c.log[..n][i].wset, c.log[..n][i].val);
    assert CI.TidsOk(c, n);
  }

  /** In a log file the TIDs of each worker's transactions strictly increase. */
  lemma FileTidsIncrease(g: Config, s: State, w: nat)
    requires Reachable(g, s) && w < |s.d.ws| && D.WorkerIn(s.d, w)
    ensures Increasing(DI.FileOf(s.d.ls[s.d.loggerOf[w]].file, w))
  {
    ReachableInv(g, s);
    PartsReachable(g, s);
    DT.FileInPushOrder(g.epochDiff, g.loggerOf, g.members, s.d, w);
    assert LinkOk(s, w);
    assert s.c.log[..|s.c.log|] == s.c.log;
    PushesIncrease(s.c, |s.c.log|, w);
    var f := DI.FileOf(s.d.ls[s.d.loggerOf[w]].file, w);
    assert forall i :: 0 <= i < |f| ==> f[i] == PushesOf(s.c.log, w)[i];
  }

  /** After a shutdown, with or without a worker that was ever skipped, replaying all records gives
      exactly the table that was in memory. */
  lemma ShutdownRecovery(g: Config, s: State)
    requires Reachable(g, s) && AllEnded(s)
    ensures |s.c.table| == |g.init|
    ensures forall x :: 0 <= x < |g.init| ==> Replay(g.init, DiskRecords(s.d.ls), s.c.ge)[x] == s.c.table[x].val
  {
    ReachableInv(g, s);
    forall w | 0 <= w < |s.c.ws| ensures s.c.ws[w].pc.Finished? {
      assert D.WorkerIn(s.d, w);
      ShutdownWritesAll(g, s, w);
    }
    EndedComplete(g, s);
    ReplayComplete(s, s.c.ge);
    AllInPrefix(s.c);
    PartsReachable(g, s);
    CT.QuiescentIsSerial(g.init, g.wvals, s.c);
  }

  lemma EndedStopped(d: D.State, w: nat)
    requires DI.Inv(d) && D.WorkerIn(d, w) && DI.Ended(d.ls[d.loggerOf[w]].pc)
    ensures d.ws[w].pc.Stopped?
  {
    var lg := d.ls[d.loggerOf[w]];
    assert DI.LoggerOk(d, d.loggerOf[w]);
    var k :| 0 <= k < |lg.members| && lg.members[k] == w;
    assert d.ws[lg.members[k]].pc.Stopped?;
  }

  lemma AllInPrefix(c: C.State)
    requires CI.Inv(c)
    ensures CT.PrefixLength(c.log, c.ge) == |c.log|
  {
    if c.log != [] { EntryEpoch(c, |c.log| - 1); }
  }

  lemma EntryEpoch(c: C.State, j: nat)
    requires CI.Inv(c) && j < |c.log|
    ensures c.log[j].epoch <= c.ge
  {
    assert CL.EntryOk(c.init, c.log, j);
  }

  lemma EndedComplete(g: Config, s: State)
    requires Reachable(g, s) && Inv(s) && AllEnded(s)
    requires forall w :: 0 <= w < |s.c.ws| ==> s.c.ws[w].pc.Finished?
    ensures Complete(s, s.c.ge)
  {
    forall j | 0 <= j < |s.c.log| ensures !s.c.log[j].st.Pending? { assert CI.PendingOk(s.c, j); }
    forall j, x | 0 <= j < |s.c.log| && s.c.log[j].st.Committed? && x in s.c.log[j].wset
      ensures RecordOf(s.c.log, j, x) in DiskRecords(s.d.ls)
    {
      EndedOnDisk(g, s, j, x);
    }
  }

  lemma EndedOnDisk(g: Config, s: State, j: nat, x: nat)
    requires Reachable(g, s) && Inv(s) && AllEnded(s)
    requires j < |s.c.log| && s.c.log[j].st.Committed? && x in s.c.log[j].wset
    ensures RecordOf(s.c.log, j, x) in DiskRecords(s.d.ls)
  {
    var w := s.c.log[j].worker;
    assert CI.PendingOk(s.c, j);
    assert D.WorkerIn(s.d, w);
    ShutdownWritesAll(g, s, w);
    InPushesOf(s.c.log, w, D.Records(s.c.log[j].st.ctid, s.c.log[j].wset, s.c.log[j].val));
    PushedOnDisk(s, w, j, x);
  }
}
