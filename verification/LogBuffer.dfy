/** One log buffer (include/log_buffer.h, log_buffer.cpp:32-48): an array of records that push fills and
    write turns into a block of data.log. `View` is the buffer as the pipeline sees it. */
module LogBuffers {
  import opened TidWords
  import opened LogFormats
  import opened LogWriters
  import C = CommitModel
  import D = LogModel
  import DI = LogInv

  lemma PushRecordsAppend(ps: seq<D.Push>, p: D.Push)
    ensures D.PushRecords(ps + [p]) == D.PushRecords(ps) + p
  {
    assert (ps + [p])[..|ps|] == ps;
  }

  lemma PrefixGrows(a: seq<D.Record>, p: seq<D.Record>, i: nat)
    requires i < |p|
    ensures a + p[..i + 1] == (a + p[..i]) + [p[i]]
  {
  }

  // ---- One buffer ---------------------------------------------------------------------------

  class LogBuffer {
    const owner: nat
    const id: nat
    const logSet: array<D.Record>
    var logSetSize: nat
    var nidSetSize: nat
    var minEpoch: nat
    var maxEpoch: nat
    ghost var pushes: seq<D.Push>      // what log_set_ holds, push by push

    ghost predicate Valid()
      reads this, logSet
    {
      && logSet.Length == D.LOG_BUFFER_SIZE && logSetSize <= logSet.Length
      && logSet[..logSetSize] == D.PushRecords(pushes)
      && (forall i :: 0 <= i < |pushes| ==> pushes[i] != [])
    }

    ghost function View(): D.Buffer
      reads this
    {
      D.Buffer(owner, id, pushes, nidSetSize > 0, minEpoch, maxEpoch)
    }

    constructor (owner: nat, id: nat)
      ensures Valid() && fresh(logSet) && View() == D.CleanBuffer(owner, id, false)
    {
      this.owner, this.id := owner, id;
      logSet := new D.Record[D.LOG_BUFFER_SIZE](_ => D.Record(C.ZERO_WORD, 0, []));
      logSetSize, nidSetSize, minEpoch, maxEpoch := 0, 0, D.NO_EPOCH, 0;
      pushes := [];
    }

    /** push, lines 36-38. */
    method CopyRecords(tid: TidWord, writeSet: seq<nat>, val: C.Value)
      requires logSetSize + |writeSet| <= logSet.Length
      modifies this`logSetSize, logSet
      ensures logSetSize == old(logSetSize) + |writeSet|
      ensures logSet[..logSetSize] == old(logSet[..logSetSize]) + D.Records(tid, writeSet, val)
    {
      ghost var push := D.Records(tid, writeSet, val);
      ghost var before := logSet[..logSetSize];
      var i := 0;
      while i < |writeSet|
        invariant 0 <= i <= |writeSet| && logSetSize == old(logSetSize) + i
        invariant logSet[..logSetSize] == before + push[..i]
      {
        ghost var sofar := logSet[..logSetSize];
        logSet[logSetSize] := D.Record(tid, writeSet[i], val);
        logSetSize := logSetSize + 1;
        assert logSet[..logSetSize] == sofar + [push[i]];
        PrefixGrows(before, push, i);
        i := i + 1;
      }
      assert push[..i] == push;
    }

    method Push(tid: TidWord, writeSet: seq<nat>, val: C.Value)
      requires Valid() && logSetSize + |writeSet| <= D.LOG_BUFFER_SIZE
      modifies this`logSetSize, this`nidSetSize, this`minEpoch, this`maxEpoch, this`pushes, logSet
      ensures Valid() && logSetSize == old(logSetSize) + |writeSet|
      ensures View() == D.Append(old(View()), tid, D.Records(tid, writeSet, val))
    {
      ghost var push := D.Records(tid, writeSet, val);
      CopyRecords(tid, writeSet, val);
      nidSetSize := nidSetSize + 1;
      if tid.epoch < minEpoch { minEpoch := tid.epoch; }
      if tid.epoch > maxEpoch { maxEpoch := tid.epoch; }
      if push == [] {
        assert logSet[..logSetSize] == D.PushRecords(pushes);
      } else {
        PushRecordsAppend(pushes, push);
        pushes := pushes + [push];
      }
    }

    method Empty() returns (e: bool)
      ensures e == !View().used
    {
      e := nidSetSize == 0;
    }

    method AddRecord(header: LogHeader, ghost rs: seq<D.Record>, i: nat)
      requires i < logSetSize <= logSet.Length && rs == logSet[..logSetSize] && AllStorable(rs) && header.Valid()
      requires header.chkSum == WordSum(rs[..i]) % WORD
      modifies header`chkSum
      ensures header.Valid() && header.chkSum == WordSum(rs[..i + 1]) % WORD
    {
      var chkSum := ComputeChkSum(logSet[i]);
      PrefixSum(rs, i);
      header.Add(chkSum);
    }

    /** write, lines 64-69. */
    method PrepareHeader() returns (header: LogHeader)
      requires Valid() && AllStorable(logSet[..logSetSize])
      ensures fresh(header) && header.logRecNum == logSetSize
      ensures header.chkSum == Complement(WordSum(logSet[..logSetSize]))
    {
      ghost var rs := logSet[..logSetSize];
      header := new LogHeader();
      var i := 0;
      while i < logSetSize
        modifies header
        invariant 0 <= i <= logSetSize == |rs| && header.Valid()
        invariant header.chkSum == WordSum(rs[..i]) % WORD
      {
        AddRecord(header, rs, i);
        i := i + 1;
      }
      assert rs[..i] == rs;
      header.logRecNum := logSetSize;
      header.ConvertChkSumIntoComplementOnTwo();
      ComplementIs(WordSum(rs), header.chkSum);
    }

    /** One block with a header whose checksum closes the sum, unless there is nothing to write.
        False where the writer aborts. */
    method Write(logfile: PosixWriter, byteCount: nat) returns (ok: bool, count: nat)
      requires Valid() && logfile.Valid() && AllStorable(logSet[..logSetSize])
      modifies logfile`data, this`logSetSize, this`pushes
      ensures Valid() && logfile.Valid()
      ensures ok ==> View() == old(View()).(pushes := []) && logSetSize == 0
      ensures ok ==> count - byteCount == |logfile.data| - |old(logfile.data)|
      ensures ok ==> logfile.data == old(logfile.data) +
                       (if old(logSetSize) == 0 then [] else EncodeBlock(old(logSet[..logSetSize])))
      ensures !ok ==> old(logSetSize) > 0
    {
      count := byteCount;
      if logSetSize == 0 {
        DI.TotalLength(pushes);
        DI.TotalZero(pushes);
        return true, count;
      }
      var header := PrepareHeader();
      ghost var rs, before := logSet[..logSetSize], logfile.data;
      count := count + HEADER_BYTES + D.RECORD_BYTES * logSetSize;
      ok := logfile.Write(header.Image());
      if !ok { return; }
      ok := logfile.Write(EncodeRecords(logSet[..logSetSize]));
      if !ok { return; }
      Associates(before, header.Image(), EncodeRecords(rs));
      logSetSize := 0;
      pushes := [];
    }
  }

  lemma PrefixSum(rs: seq<D.Record>, i: nat)
    requires AllStorable(rs) && i < |rs|
    ensures (WordSum(rs[..i]) % WORD + RecordSum(rs[i]) % WORD) % WORD == WordSum(rs[..i + 1]) % WORD
  {
    WordSumStep(rs[..i], rs[i]);
    assert rs[..i + 1] == rs[..i] + [rs[i]];
    AddModulo(WordSum(rs[..i]), RecordSum(rs[i]));
  }

  lemma AddModulo(a: nat, b: nat)
    ensures (a % WORD + b % WORD) % WORD == (a + b) % WORD
  {
    var q := a / WORD + b / WORD;
    assert a + b == (a % WORD + b % WORD) + q * WORD;
  }

  lemma ComplementIs(sum: nat, c: nat)
    requires c < WORD && (sum % WORD + c) % WORD == 0
    ensures c == Complement(sum)
  {
    var d := Complement(sum);
    assert (d + sum) % WORD == 0;
    SameResidue(sum, c, d);
  }

  lemma SameResidue(sum: nat, c: nat, d: nat)
    requires c < WORD && d < WORD && (sum % WORD + c) % WORD == 0 && (d + sum) % WORD == 0
    ensures c == d
  {
    var s := sum % WORD;
    assert (s + d) % WORD == 0 by {
      assert d + sum == (s + d) + sum / WORD * WORD;
    }
    assert s + c == 0 || s + c == WORD;
    assert s + d == 0 || s + d == WORD;
  }
}
