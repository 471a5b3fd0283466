/** Recovery from the bytes of the log files: what the loggers have fsynced decodes to the records that
    replay needs. */
module RecoveryFromBytes {
  import opened LogFormats
  import opened System
  import C = CommitModel
  import CI = CommitInv
  import CL = CommitLog
  import CT = CommitTheorems
  import D = LogModel
  import DI = LogInv
  import DT = LogTheorems
  import R = Recovery

  /** The records of each block. */
  function BlockRecords(f: seq<D.Block>): (bs: seq<seq<D.Record>>)
    ensures |bs| == |f|
  {
    seq(|f|, i requires 0 <= i < |f| => D.PushRecords(f[i].pushes))
  }

  function Concat(bs: seq<seq<D.Record>>): seq<D.Record> {
    if bs == [] then [] else Concat(bs[..|bs| - 1]) + bs[|bs| - 1]
  }

  lemma {:induction false} ConcatBlocks(f: seq<D.Block>)
    ensures Concat(BlockRecords(f)) == R.FileRecords(f)
  {
    if f != [] {
      ConcatBlocks(f[..|f| - 1]);
      assert BlockRecords(f)[..|f| - 1] == BlockRecords(f[..|f| - 1]);
    }
  }

  /** The bytes of data.log that survive a crash. */
  function Image(lg: D.Logger): seq<Byte>
    requires FileFits(BlockRecords(R.Disk(lg)))
  {
    EncodeFile(BlockRecords(R.Disk(lg)))
  }

  /** Reading the files of all loggers. */
  function ReadLogs(files: seq<seq<Byte>>): D.Option<seq<D.Record>> {
    if files == [] then D.Some([])
    else
      var before, last := ReadLogs(files[..|files| - 1]), DecodeFile(files[|files| - 1]);
      if before.None? || last.None? then D.None else D.Some(before.value + Concat(last.value))
  }

  ghost predicate AllFit(ls: seq<D.Logger>) {
    forall l :: 0 <= l < |ls| ==> FileFits(BlockRecords(R.Disk(ls[l])))
  }

  function Images(ls: seq<D.Logger>): (fs: seq<seq<Byte>>)
    requires AllFit(ls)
    ensures |fs| == |ls|
  {
    seq(|ls|, l requires 0 <= l < |ls| => Image(ls[l]))
  }

  lemma {:induction false} LogsReadBack(ls: seq<D.Logger>)
    requires AllFit(ls)
    ensures ReadLogs(Images(ls)) == D.Some(R.DiskRecords(ls))
  {
    if ls != [] {
      var n := |ls| - 1;
      LogsReadBack(ls[..n]);
      assert Images(ls)[..n] == Images(ls[..n]);
      FileRoundTrip(BlockRecords(R.Disk(ls[n])));
      ConcatBlocks(R.Disk(ls[n]));
    }
  }

  // ---- What the program writes fits the format ----------------------------------------------

  /** Keys are 32-bit numbers and values are bytes. */
  ghost predicate Loadable(g: Config) {
    && |g.init| <= WORD
    && forall w, i :: 0 <= w < |g.wvals| && 0 <= i < |g.wvals[w]| ==> IsByte(g.wvals[w][i])
  }

  /** The blocks that a logger has written or has begun to write. */
  function Begun(lg: D.Logger): seq<D.Block> {
    lg.file + (if lg.pc.WriteOut? && lg.pc.batch != [] && D.Size(lg.pc.batch[0]) != 0
               then [D.Block(lg.pc.batch[0].owner, lg.pc.batch[0].pushes)] else [])
  }

  lemma PushFits(g: Config, s: State, w: nat, p: D.Push, r: D.Record)
    requires Reachable(g, s) && Loadable(g) && w < |s.d.ws| && p in s.d.ws[w].hist && r in p
    ensures Storable(r)
  {
    ReachableInv(g, s);
    var j := PushOf(s, w, p);
    EntryFits(s.c, j);
    PartsReachable(g, s);
    ValuesFrom(g, s.c);
    RecordFits(g, s.c.log[j], r);
  }

  /** The transaction that a push was made of. */
  lemma PushOf(s: State, w: nat, p: D.Push) returns (j: nat)
    requires Inv(s) && w < |s.d.ws| && p in s.d.ws[w].hist
    ensures j < |s.c.log| && s.c.log[j].st.Committed?
    ensures p == D.Records(s.c.log[j].st.ctid, s.c.log[j].wset, s.c.log[j].val)
  {
    assert LinkOk(s, w);
    assert p in s.d.ws[w].hist + Underway(s.d.ws[w]);
    R.InPushesOf(s.c.log, w, p);
    j :| 0 <= j < |s.c.log| && s.c.log[j].worker == w && s.c.log[j].st.Committed? && s.c.log[j].wset != [] &&
         p == D.Records(s.c.log[j].st.ctid, s.c.log[j].wset, s.c.log[j].val);
  }

  lemma RecordFits(g: Config, e: C.Entry, r: D.Record)
    requires Loadable(g) && e.st.Committed? && e.st.ctid.Valid() && |e.val| == C.VAL_SIZE
    requires e.worker < |g.wvals| && e.val == g.wvals[e.worker] && forall x :: x in e.wset ==> x < |g.init|
    requires r in D.Records(e.st.ctid, e.wset, e.val)
    ensures Storable(r)
  {
    var i :| 0 <= i < |e.wset| && D.Records(e.st.ctid, e.wset, e.val)[i] == r;
    assert e.wset[i] in e.wset;
  }

  lemma EntryFits(c: C.State, j: nat)
    requires CI.Inv(c) && j < |c.log| && c.log[j].st.Committed?
    ensures c.log[j].st.ctid.Valid() && |c.log[j].val| == C.VAL_SIZE && forall x :: x in c.log[j].wset ==> x < |c.init|
  {
    assert CL.EntryOk(c.init, c.log, j);
  }

  lemma ValuesFrom(g: Config, c: C.State)
    requires CT.Reachable(g.init, g.wvals, c)
    ensures CT.ValuesOk(c)
  {
    var trace :| C.Reaches(C.InitState(g.init, g.wvals), trace, c);
    CT.RunKeepsValues(C.InitState(g.init, g.wvals), trace, c);
  }

  lemma {:induction false} InBufsOf(q: seq<D.Buffer>, i: nat, w: nat, p: D.Push)
    requires i < |q| && q[i].owner == w && p in q[i].pushes
    ensures p in DI.BufsOf(q, w)
  {
    if i < |q| - 1 { InBufsOf(q[..|q| - 1], i, w, p); }
  }

  /** The pushes of every such block are in its worker's history. */
  lemma BegunInHistory(d: D.State, l: nat, b: D.Block, p: D.Push)
    requires DI.Inv(d) && l < |d.ls| && b in Begun(d.ls[l]) && p in b.pushes
    ensures b.owner < |d.ws| && p in d.ws[b.owner].hist && D.Total(b.pushes) <= D.LOG_BUFFER_SIZE
  {
    var lg := d.ls[l];
    assert DI.LoggerOk(d, l);
    if b in lg.file {
      var i :| 0 <= i < |lg.file| && lg.file[i] == b;
      assert d.loggerOf[b.owner] == l && DI.StreamOk(d, b.owner);
      R.InFileOf(lg.file, b.owner, p);
    } else {
      assert DI.QueuedOk(d, l, DI.Batch(lg)[0]);
      assert DI.StreamOk(d, b.owner);
      InBufsOf(DI.Batch(lg), 0, b.owner, p);
    }
  }

  lemma BegunSize(d: D.State, l: nat, b: D.Block)
    requires DI.Inv(d) && l < |d.ls| && b in Begun(d.ls[l])
    ensures D.Total(b.pushes) <= D.LOG_BUFFER_SIZE
  {
    var lg := d.ls[l];
    assert DI.LoggerOk(d, l);
    if b in lg.file {
      var i :| 0 <= i < |lg.file| && lg.file[i] == b;
    } else {
      assert DI.QueuedOk(d, l, DI.Batch(lg)[0]);
    }
  }

  lemma BlockFitsFormat(g: Config, s: State, l: nat, b: D.Block)
    requires Reachable(g, s) && Loadable(g) && l < |s.d.ls| && b in Begun(s.d.ls[l])
    ensures BlockFits(D.PushRecords(b.pushes))
  {
    ReachableInv(g, s);
    BegunSize(s.d, l, b);
    var rs := D.PushRecords(b.pushes);
    DI.TotalLength(b.pushes);
    forall k | 0 <= k < |rs| ensures Storable(rs[k]) {
      R.InPushRecords(b.pushes, rs[k]);
      var p :| p in b.pushes && rs[k] in p;
      BegunInHistory(s.d, l, b, p);
      PushFits(g, s, b.owner, p, rs[k]);
    }
  }

  lemma BegunFits(g: Config, s: State, l: nat)
    requires Reachable(g, s) && Loadable(g) && l < |s.d.ls|
    ensures FileFits(BlockRecords(Begun(s.d.ls[l])))
  {
    var f := Begun(s.d.ls[l]);
    forall i | 0 <= i < |f| ensures BlockFits(D.PushRecords(f[i].pushes)) { BlockFitsFormat(g, s, l, f[i]); }
  }

  lemma LogsFit(g: Config, s: State)
    requires Reachable(g, s) && Loadable(g)
    ensures AllFit(s.d.ls)
  {
    forall l | 0 <= l < |s.d.ls| ensures FileFits(BlockRecords(R.Disk(s.d.ls[l]))) {
      BegunFits(g, s, l);
      DiskFits(s.d.ls[l]);
    }
  }

  lemma DiskFits(lg: D.Logger)
    requires FileFits(BlockRecords(Begun(lg)))
    ensures FileFits(BlockRecords(R.Disk(lg)))
  {
    var f, b := R.Disk(lg), Begun(lg);
    forall i | 0 <= i < |f| ensures BlockFits(BlockRecords(f)[i]) {
      assert f[i] == b[i] && BlockRecords(f)[i] == BlockRecords(b)[i];
    }
  }

  /** Recovery, from bytes to table: what the loggers have fsynced can be read, block by block, with every
      checksum right, and where replay of the records is right, so is replay of what the bytes hold. */
  lemma BytesRecover(g: Config, s: State, e: nat)
    requires Reachable(g, s) && Loadable(g) && R.Recovered(s, e)
    ensures AllFit(s.d.ls) && ReadLogs(Images(s.d.ls)).Some?
    ensures R.Replay(g.init, ReadLogs(Images(s.d.ls)).value, e) == CT.Serial(g.init, s.c.log,
              CT.PrefixLength(s.c.log, e))
  {
    LogsFit(g, s);
    LogsReadBack(s.d.ls);
    ReachableInv(g, s);
  }

  // ---- A crash may leave more ---------------------------------------------------------------

  /** What a crash may leave of a log file: all that was fsynced, and any beginning of what was written, or
      about to be written, after that. */
  ghost predicate MayLeave(lg: D.Logger, bytes: seq<Byte>) {
    && FileFits(BlockRecords(Begun(lg))) && FileFits(BlockRecords(R.Disk(lg)))
    && Image(lg) <= bytes <= EncodeFile(BlockRecords(Begun(lg)))
  }

  /** Each file is what a crash may leave of it. */
  ghost predicate Left(ls: seq<D.Logger>, files: seq<seq<Byte>>) {
    |files| == |ls| && forall l :: 0 <= l < |files| ==> MayLeave(ls[l], files[l])
  }

  /** Reading the whole blocks of a file. */
  function Whole(bytes: seq<Byte>): seq<D.Record> {
    Concat(WholeBlocks(bytes))
  }

  function ReadWhole(files: seq<seq<Byte>>): seq<D.Record> {
    if files == [] then [] else ReadWhole(files[..|files| - 1]) + Whole(files[|files| - 1])
  }

  lemma BlocksOfPart(f: seq<D.Block>, n: nat)
    requires n <= |f|
    ensures BlockRecords(f)[..n] == BlockRecords(f[..n]) && Concat(BlockRecords(f)[..n]) == R.FileRecords(f[..n])
  {
    assert BlockRecords(f)[..n] == BlockRecords(f[..n]);
    ConcatBlocks(f[..n]);
  }

  /** The whole blocks of what is left of a file are the first of those begun, the fsynced among them. */
  lemma WholeOf(lg: D.Logger, bytes: seq<Byte>) returns (k: nat)
    requires MayLeave(lg, bytes) && lg.synced <= |lg.file|
    ensures lg.synced <= k <= |Begun(lg)| && Whole(bytes) == R.FileRecords(Begun(lg)[..k])
    ensures R.Disk(lg) == Begun(lg)[..lg.synced]
  {
    var f, n := Begun(lg), lg.synced;
    assert f[..n] == R.Disk(lg);
    BlocksOfPart(f, n);
    k := BeginningReads(BlockRecords(f), n, bytes);
    BlocksOfPart(f, k);
  }

  lemma {:induction false} FromWhole(files: seq<seq<Byte>>, r: D.Record) returns (l: nat)
    requires r in ReadWhole(files)
    ensures l < |files| && r in Whole(files[l])
  {
    var n := |files| - 1;
    if r in ReadWhole(files[..n]) { l := FromWhole(files[..n], r); } else { l := n; }
  }

  lemma {:induction false} OntoWhole(files: seq<seq<Byte>>, l: nat, r: D.Record)
    requires l < |files| && r in Whole(files[l])
    ensures r in ReadWhole(files)
  {
    if l < |files| - 1 { OntoWhole(files[..|files| - 1], l, r); }
  }

  /** A record of a block that was begun is that of a committed transaction. */
  lemma BegunCommitted(s: State, l: nat, k: nat, r: D.Record)
    requires Inv(s) && l < |s.d.ls| && k <= |Begun(s.d.ls[l])| && r in R.FileRecords(Begun(s.d.ls[l])[..k])
    ensures R.OfCommitted(s.c, r)
  {
    var f := Begun(s.d.ls[l])[..k];
    R.InFileRecords(f, r);
    var b :| b in f && exists p :: p in b.pushes && r in p;
    var p :| p in b.pushes && r in p;
    BegunInHistory(s.d, l, b, p);
    var j := PushOf(s, b.owner, p);
    var i :| 0 <= i < |p| && p[i] == r;
    assert s.c.log[j].wset[i] in s.c.log[j].wset && r == R.RecordOf(s.c.log, j, s.c.log[j].wset[i]);
  }

  lemma MoreBlocks(f: seq<D.Block>, n: nat, k: nat, r: D.Record)
    requires n <= k <= |f| && r in R.FileRecords(f[..n])
    ensures r in R.FileRecords(f[..k])
  {
    R.InFileRecords(f[..n], r);
    R.InFileRecords(f[..k], r);
    assert f[..k][..n] == f[..n];
  }

  /** What is left holds all that was fsynced, and only records of committed transactions. */
  lemma LeftHolds(s: State, files: seq<seq<Byte>>, e: nat)
    requires Inv(s) && R.Complete(s, e)
    requires Left(s.d.ls, files)
    ensures R.Holds(s, ReadWhole(files), e)
  {
    forall r | r in ReadWhole(files) ensures R.OfCommitted(s.c, r) {
      var l := FromWhole(files, r);
      assert DI.LoggerOk(s.d, l);
      var k := WholeOf(s.d.ls[l], files[l]);
      BegunCommitted(s, l, k, r);
    }
    forall r | r in R.DiskRecords(s.d.ls) ensures r in ReadWhole(files) {
      var l := R.FromDisk(s.d.ls, r);
      assert DI.LoggerOk(s.d, l);
      var k := WholeOf(s.d.ls[l], files[l]);
      MoreBlocks(Begun(s.d.ls[l]), s.d.ls[l].synced, k, r);
      OntoWhole(files, l, r);
    }
  }

  /** Recovery from whatever a crash leaves: each file may end anywhere behind its fsynced part, in the middle
      of a block too. When the epochs up to e are on disk, its whole blocks give the serial state, however much
      of later epochs, or of the same, they hold besides. */
  lemma CrashRecovers(g: Config, s: State, files: seq<seq<Byte>>, e: nat)
    requires Reachable(g, s) && R.Complete(s, e) && Left(s.d.ls, files)
    ensures R.Replay(g.init, ReadWhole(files), e) == CT.Serial(g.init, s.c.log, CT.PrefixLength(s.c.log, e))
  {
    ReachableInv(g, s);
    LeftHolds(s, files, e);
    R.ReplayHeld(s, ReadWhole(files), e);
  }

  lemma CrashRecoversUnblinded(g: Config, s: State, files: seq<seq<Byte>>, e: nat)
    requires Reachable(g, s) && R.NeverBlind(s) && e <= s.d.durable && Left(s.d.ls, files)
    ensures R.Replay(g.init, ReadWhole(files), e) == CT.Serial(g.init, s.c.log, CT.PrefixLength(s.c.log, e))
  {
    ReachableInv(g, s);
    R.NeverBlindKept(s);
    R.KeptComplete(s, s.d.durable, e);
    CrashRecovers(g, s, files, e);
  }

  /** The fsynced part alone is one thing that a crash may leave. */
  lemma ImagesLeft(g: Config, s: State)
    requires Reachable(g, s) && Loadable(g)
    ensures AllFit(s.d.ls) && Left(s.d.ls, Images(s.d.ls))
    ensures ReadWhole(Images(s.d.ls)) == R.DiskRecords(s.d.ls)
  {
    ReachableInv(g, s);
    LogsFit(g, s);
    forall l | 0 <= l < |s.d.ls| ensures MayLeave(s.d.ls[l], Images(s.d.ls)[l]) { OneLeft(g, s, l); }
    WholeImages(s.d.ls);
  }

  lemma OneLeft(g: Config, s: State, l: nat)
    requires Reachable(g, s) && Loadable(g) && l < |s.d.ls| && AllFit(s.d.ls)
    ensures MayLeave(s.d.ls[l], Image(s.d.ls[l]))
  {
    var lg := s.d.ls[l];
    BegunFits(g, s, l);
    ReachableInv(g, s);
    assert DI.LoggerOk(s.d, l);
    var f := BlockRecords(Begun(lg));
    assert BlockRecords(R.Disk(lg)) == f[..lg.synced];
    EncodePrefix(f, lg.synced);
  }

  lemma {:induction false} EncodePrefix(f: seq<seq<D.Record>>, n: nat)
    requires n <= |f| && FileFits(f)
    ensures FileFits(f[..n]) && EncodeFile(f[..n]) <= EncodeFile(f)
  {
    if n < |f| {
      var m := |f| - 1;
      EncodePrefix(f[..m], n);
      assert f[..m][..n] == f[..n];
    } else {
      assert f[..n] == f;
    }
  }

  lemma {:induction false} WholeImages(ls: seq<D.Logger>)
    requires AllFit(ls)
    ensures ReadWhole(Images(ls)) == R.DiskRecords(ls)
  {
    if ls != [] {
      var n := |ls| - 1;
      WholeImages(ls[..n]);
      assert Images(ls)[..n] == Images(ls[..n]);
      WholeImage(ls[n]);
    }
  }

  lemma WholeImage(lg: D.Logger)
    requires FileFits(BlockRecords(R.Disk(lg)))
    ensures Whole(Image(lg)) == R.FileRecords(R.Disk(lg))
  {
    var f := BlockRecords(R.Disk(lg));
    assert f[..|f|] == f;
    var k := BeginningReads(f, |f|, EncodeFile(f));
    ConcatBlocks(R.Disk(lg));
  }
}
