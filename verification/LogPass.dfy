/** What a pass of a logger writes, in bytes (logger.cpp:66-81): the loop over the dequeued buffers appends to
    data.log the encoding of the blocks that the pipeline's model of the pass adds to its file. */
module LogPasses {
  import opened LogFormats
  import opened LogBuffers
  import opened LogWriters
  import opened RecoveryFromBytes
  import L = Loggers
  import D = LogModel
  import DI = LogInv

  ghost function Views(bs: seq<LogBuffer>): (q: seq<D.Buffer>)
    reads bs
    ensures |q| == |bs|
  {
    seq(|bs|, i requires 0 <= i < |bs| reads bs => bs[i].View())
  }

  /** What can be written: valid, with records that fit the format, and each buffer once. */
  ghost predicate Writable(b: LogBuffer)
    reads b, b.logSet
  {
    b.Valid() && AllStorable(b.logSet[..b.logSetSize])
  }

  ghost predicate Distinct(bs: seq<LogBuffer>) {
    forall i, j :: 0 <= i < j < |bs| ==> bs[i] != bs[j]
  }

  // ---- The encoding of several blocks -------------------------------------------------------

  /** The bytes are those of the blocks. */
  predicate Shown(f: seq<D.Block>, bytes: seq<Byte>) {
    FileFits(BlockRecords(f)) && EncodeFile(BlockRecords(f)) == bytes
  }

  lemma LastOf<T>(a: seq<T>, b: seq<T>)
    requires b != []
    ensures (a + b)[..|a + b| - 1] == a + b[..|b| - 1] && (a + b)[|a + b| - 1] == b[|b| - 1]
  {
  }

  lemma {:induction false} EncodeConcat(a: seq<seq<D.Record>>, b: seq<seq<D.Record>>)
    requires FileFits(a) && FileFits(b)
    ensures FileFits(a + b) && EncodeFile(a + b) == EncodeFile(a) + EncodeFile(b)
  {
    if b == [] {
      assert a + b == a && EncodeFile(a) + EncodeFile(b) == EncodeFile(a);
    } else {
      var m := |b| - 1;
      EncodeConcat(a, b[..m]);
      LastOf(a, b);
      Associates(EncodeFile(a), EncodeFile(b[..m]), EncodeBlock(b[m]));
    }
  }

  /** A file that shows its blocks in bytes shows them after a pass, too. */
  lemma FileGrows(f: seq<D.Block>, h: seq<D.Block>)
    requires FileFits(BlockRecords(f)) && FileFits(BlockRecords(h))
    ensures FileFits(BlockRecords(f + h))
    ensures EncodeFile(BlockRecords(f + h)) == EncodeFile(BlockRecords(f)) + EncodeFile(BlockRecords(h))
  {
    assert BlockRecords(f + h) == BlockRecords(f) + BlockRecords(h);
    EncodeConcat(BlockRecords(f), BlockRecords(h));
  }

  lemma StillShown(f: seq<D.Block>, data: seq<Byte>, h: seq<D.Block>, bytes: seq<Byte>)
    requires Shown(f, data) && Shown(h, bytes)
    ensures Shown(f + h, data + bytes)
  {
    FileGrows(f, h);
  }

  /** The bytes of one buffer. */
  function BytesOf(b: D.Buffer): seq<Byte> {
    if D.Size(b) == 0 || !BlockFits(D.PushRecords(b.pushes)) then [] else EncodeBlock(D.PushRecords(b.pushes))
  }

  lemma OneBlock(b: D.Buffer)
    requires BlockFits(D.PushRecords(b.pushes))
    ensures FileFits(BlockRecords(L.BlockOf(b))) && EncodeFile(BlockRecords(L.BlockOf(b))) == BytesOf(b)
  {
    if D.Size(b) != 0 {
      var one := BlockRecords(L.BlockOf(b));
      assert one == [D.PushRecords(b.pushes)];
      assert one[..0] == [];
      assert EncodeFile(one) == EncodeFile([]) + EncodeBlock(one[0]);
    }
  }

  /** One more buffer. */
  lemma NextBuffer(f: seq<D.Block>, h: seq<D.Block>, b: D.Buffer)
    requires FileFits(BlockRecords(f)) && BlockFits(D.PushRecords(b.pushes)) && h == f + L.BlockOf(b)
    ensures FileFits(BlockRecords(h)) && EncodeFile(BlockRecords(h)) == EncodeFile(BlockRecords(f)) + BytesOf(b)
  {
    OneBlock(b);
    FileGrows(f, L.BlockOf(b));
  }

  // ---- The loop -----------------------------------------------------------------------------

  lemma ViewFits(b: LogBuffer)
    requires Writable(b)
    ensures BlockFits(D.PushRecords(b.View().pushes)) && D.Size(b.View()) == b.logSetSize
    ensures D.PushRecords(b.View().pushes) == b.logSet[..b.logSetSize]
  {
    DI.TotalLength(b.pushes);
  }

  /** Empty again. */
  predicate Emptied(b: LogBuffer)
    reads b
  {
    b.logSetSize == 0 && b.minEpoch == D.NO_EPOCH && b.maxEpoch == 0
  }

  /** Lines 75-79: write the buffer and give it the epochs of an empty one. */
  method WriteOne(b: LogBuffer, logfile: PosixWriter, byteCount: nat) returns (ok: bool, count: nat)
    requires Writable(b) && logfile.Valid()
    modifies logfile`data, b`logSetSize, b`pushes, b`minEpoch, b`maxEpoch
    ensures logfile.Valid() && (ok ==> b.Valid())
    ensures ok ==> Emptied(b) && b.View() == D.CleanBuffer(b.owner, b.id, old(b.View()).used)
    ensures BlockFits(D.PushRecords(old(b.View()).pushes))
    ensures ok ==> logfile.data == old(logfile.data) + BytesOf(old(b.View()))
    ensures ok ==> count - byteCount == |logfile.data| - |old(logfile.data)|
  {
    ViewFits(b);
    ok, count := b.Write(logfile, byteCount);
    if !ok { return; }
    b.minEpoch, b.maxEpoch := D.NO_EPOCH, 0;
  }

  lemma ShownNone()
    ensures Shown([], [])
  {
  }

  lemma ShownNext(f: seq<D.Block>, bytes: seq<Byte>, b: D.Buffer)
    requires Shown(f, bytes) && BlockFits(D.PushRecords(b.pushes))
    ensures Shown(f + L.BlockOf(b), bytes + BytesOf(b))
  {
    NextBuffer(f, f + L.BlockOf(b), b);
  }

  ghost predicate Waiting(b: LogBuffer, v: D.Buffer)
    reads b, b.logSet
  {
    Writable(b) && b.View() == v
  }

  /** The first i buffers are written. */
  ghost predicate Stage(bs: seq<LogBuffer>, q: seq<D.Buffer>, i: nat)
    requires |q| == |bs|
    reads bs, set b | b in bs :: b.logSet
  {
    && (forall k :: i <= k < |bs| ==> Waiting(bs[k], q[k]))
    && (forall k :: 0 <= k < i && k < |bs| ==> Emptied(bs[k]))
  }

  /** Lines 71-80: all of them. data.log grows by the blocks that the pipeline adds to its file, encoded, and
      byte_count_ by their length. */
  method WriteAll(bs: seq<LogBuffer>, logfile: PosixWriter, byteCount: nat)
    returns (ok: bool, count: nat, ghost bytes: seq<Byte>)
    requires Distinct(bs) && logfile.Valid() && forall i :: 0 <= i < |bs| ==> Writable(bs[i])
    modifies logfile`data, bs
    ensures ok ==> Shown(L.Blocks(old(Views(bs))), bytes) && logfile.data == old(logfile.data) + bytes
    ensures ok ==> count == byteCount + |bytes|
    ensures ok ==> forall i :: 0 <= i < |bs| ==> Emptied(bs[i])
  {
    ghost var q, before := Views(bs), logfile.data;
    assert Stage(bs, q, 0);
    ShownNone();
    ok, count, bytes := true, byteCount, [];
    assert before + [] == before;
    var i := 0;
    while i < |bs|
      invariant 0 <= i <= |bs| && logfile.Valid() && ok && Stage(bs, q, i)
      invariant Shown(L.BlocksTo(q, i), bytes) && logfile.data == before + bytes && count == byteCount + |bytes|
    {
      ok, count := WriteNext(bs, logfile, count, q, i);
      if !ok { return; }
      ShownNext(L.BlocksTo(q, i), bytes, q[i]);
      Associates(before, bytes, BytesOf(q[i]));
      bytes := bytes + BytesOf(q[i]);
      i := i + 1;
    }
  }

  method WriteNext(bs: seq<LogBuffer>, logfile: PosixWriter, byteCount: nat, ghost q: seq<D.Buffer>, i: nat)
    returns (ok: bool, count: nat)
    requires Distinct(bs) && logfile.Valid() && i < |q| == |bs| && Stage(bs, q, i)
    modifies logfile`data, bs[i]
    ensures logfile.Valid() && BlockFits(D.PushRecords(q[i].pushes))
    ensures ok ==> Stage(bs, q, i + 1)
    ensures ok ==> logfile.data == old(logfile.data) + BytesOf(q[i])
    ensures ok ==> count - byteCount == |logfile.data| - |old(logfile.data)|
  {
    assert Waiting(bs[i], q[i]);
    ok, count := WriteOne(bs[i], logfile, byteCount);
  }
}
