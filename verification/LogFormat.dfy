/** The format of data.log (include/log.h, include/log_buffer.h:60-78): blocks of a 16-byte header and
    16-byte records, little-endian, with a checksum over 32-bit words. Arithmetic on the checksum is
    modulo 2^32. */
module LogFormats {
  import opened TidWords
  import C = CommitModel
  import D = LogModel

  type Byte = n: int | 0 <= n < 256

  const WORD := 0x1_0000_0000     // 2^32
  const HEADER_BYTES := 16
  const INT_BYTES: nat := 4        // int, unsigned
  const LONG_BYTES: nat := 8       // uint64_t, size_t

  // ---- Numbers ------------------------------------------------------------------------------

  function Bytes(n: nat, k: nat): (bs: seq<Byte>)
    ensures |bs| == k
  {
    if k == 0 then [] else [n % 256] + Bytes(n / 256, k - 1)
  }

  function Number(bs: seq<Byte>): nat {
    if bs == [] then 0 else bs[0] + 256 * Number(bs[1..])
  }

  function Power(k: nat): nat {
    if k == 0 then 1 else 256 * Power(k - 1)
  }

  lemma {:induction false} NumberBytes(n: nat, k: nat)
    requires n < Power(k)
    ensures Number(Bytes(n, k)) == n
  {
    if k > 0 {
      assert n / 256 < Power(k - 1);
      NumberBytes(n / 256, k - 1);
      assert Bytes(n, k)[1..] == Bytes(n / 256, k - 1);
    }
  }

  lemma Powers()
    ensures Power(INT_BYTES) == WORD && Power(LONG_BYTES) == WORD_LIMIT
  {
    assert Power(2) == 65536 && Power(1) == 256;
    assert Power(3) == 256 * Power(2) && Power(4) == 256 * Power(3);
    assert Power(5) == 256 * Power(4) && Power(6) == 256 * Power(5);
    assert Power(7) == 256 * Power(6) && Power(8) == 256 * Power(7);
  }

  // ---- Records ------------------------------------------------------------------------------

  predicate IsByte(c: char) {
    c as int < 256
  }

  /** What fits the fields of LogRecord. */
  predicate Storable(r: D.Record) {
    && r.tid.Valid() && r.key < WORD && |r.val| == C.VAL_SIZE
    && (forall i :: 0 <= i < |r.val| ==> IsByte(r.val[i]))
  }

  predicate AllStorable(rs: seq<D.Record>) {
    forall i :: 0 <= i < |rs| ==> Storable(rs[i])
  }

  function ValBytes(v: C.Value): (bs: seq<Byte>)
    requires forall i :: 0 <= i < |v| ==> IsByte(v[i])
    ensures |bs| == |v|
  {
    if v == [] then [] else [CharByte(v[0])] + ValBytes(v[1..])
  }

  function CharByte(c: char): Byte
    requires IsByte(c)
  {
    c as int
  }

  lemma {:induction false} ValBytesAt(v: C.Value, k: nat)
    requires k < |v| && forall i :: 0 <= i < |v| ==> IsByte(v[i])
    ensures ValBytes(v)[k] == v[k] as int
  {
    if k > 0 { ValBytesAt(v[1..], k - 1); }
  }

  function EncodeRecord(r: D.Record): (bs: seq<Byte>)
    requires Storable(r)
    ensures |bs| == D.RECORD_BYTES
  {
    Bytes(r.tid.Obj(), LONG_BYTES) + Bytes(r.key, INT_BYTES) + ValBytes(r.val)
  }

  function DecodeRecord(bs: seq<Byte>): D.Record
    requires |bs| == D.RECORD_BYTES
  {
    D.Record(Unpack(Number(bs[..8])), Number(bs[8..12]),
             seq(C.VAL_SIZE, i requires 0 <= i < C.VAL_SIZE => bs[12 + i] as char))
  }

  lemma RecordRoundTrip(r: D.Record)
    requires Storable(r)
    ensures DecodeRecord(EncodeRecord(r)) == r
  {
    var bs := EncodeRecord(r);
    Powers();
    UnpackObj(r.tid);
    assert bs[..8] == Bytes(r.tid.Obj(), LONG_BYTES);
    NumberBytes(r.tid.Obj(), LONG_BYTES);
    assert bs[8..12] == Bytes(r.key, INT_BYTES);
    NumberBytes(r.key, INT_BYTES);
    forall i | 0 <= i < C.VAL_SIZE ensures bs[12 + i] as char == r.val[i] {
      assert bs[12 + i] == ValBytes(r.val)[i];
      ValBytesAt(r.val, i);
    }
  }

  function EncodeRecords(rs: seq<D.Record>): (bs: seq<Byte>)
    requires AllStorable(rs)
    ensures |bs| == D.RECORD_BYTES * |rs| && |bs| % 4 == 0 == |bs| % D.RECORD_BYTES
  {
    if rs == [] then [] else EncodeRecords(rs[..|rs| - 1]) + EncodeRecord(rs[|rs| - 1])
  }

  function DecodeRecords(bs: seq<Byte>): seq<D.Record>
    requires |bs| % D.RECORD_BYTES == 0
  {
    if bs == [] then []
    else DecodeRecords(bs[..|bs| - D.RECORD_BYTES]) + [DecodeRecord(bs[|bs| - D.RECORD_BYTES..])]
  }

  lemma DecodeLast(a: seq<Byte>, b: seq<Byte>)
    requires |a| % D.RECORD_BYTES == 0 && |b| == D.RECORD_BYTES
    ensures |a + b| % D.RECORD_BYTES == 0 && DecodeRecords(a + b) == DecodeRecords(a) + [DecodeRecord(b)]
  {
    assert (a + b)[..|a + b| - D.RECORD_BYTES] == a && (a + b)[|a + b| - D.RECORD_BYTES..] == b;
  }

  lemma OneMore(bs: seq<Byte>, rs: seq<D.Record>, r: D.Record)
    requires |bs| % D.RECORD_BYTES == 0 && DecodeRecords(bs) == rs && Storable(r)
    ensures |bs + EncodeRecord(r)| % D.RECORD_BYTES == 0 && DecodeRecords(bs + EncodeRecord(r)) == rs + [r]
  {
    RecordRoundTrip(r);
    DecodeLast(bs, EncodeRecord(r));
  }

  lemma {:induction false} RecordsRoundTrip(rs: seq<D.Record>)
    requires AllStorable(rs)
    ensures DecodeRecords(EncodeRecords(rs)) == rs
  {
    if rs != [] {
      var init, last := rs[..|rs| - 1], rs[|rs| - 1];
      RecordsRoundTrip(init);
      OneMore(EncodeRecords(init), init, last);
      assert rs == init + [last];
    }
  }

  // ---- The checksum -------------------------------------------------------------------------

  /** The 32-bit words that a stretch of memory consists of. */
  function Words(bs: seq<Byte>): (ws: seq<nat>)
    requires |bs| % 4 == 0
    ensures |ws| == |bs| / 4
  {
    if bs == [] then [] else Words(bs[..|bs| - 4]) + [Number(bs[|bs| - 4..])]
  }

  function Sum(ws: seq<nat>): nat {
    if ws == [] then 0 else Sum(ws[..|ws| - 1]) + ws[|ws| - 1]
  }

  lemma {:induction false} WordsAppend(a: seq<Byte>, b: seq<Byte>)
    requires |a| % 4 == 0 && |b| % 4 == 0
    ensures Words(a + b) == Words(a) + Words(b)
    decreases |b|
  {
    if b == [] {
      assert a + b == a;
    } else {
      var m := |b| - 4;
      WordsAppend(a, b[..m]);
      assert (a + b)[..|a + b| - 4] == a + b[..m] && (a + b)[|a + b| - 4..] == b[m..];
      Associates(Words(a), Words(b[..m]), [Number(b[m..])]);
    }
  }

  lemma {:induction false} SumAppend(a: seq<nat>, b: seq<nat>)
    ensures Sum(a + b) == Sum(a) + Sum(b)
    decreases |b|
  {
    if b == [] {
      assert a + b == a;
    } else {
      var m := |b| - 1;
      SumAppend(a, b[..m]);
      assert (a + b)[..|a + b| - 1] == a + b[..m];
    }
  }

  /** The sum over the words of a record, and of several. */
  function RecordSum(r: D.Record): nat
    requires Storable(r)
  {
    Sum(Words(EncodeRecord(r)))
  }

  function WordSum(rs: seq<D.Record>): nat
    requires AllStorable(rs)
  {
    Sum(Words(EncodeRecords(rs)))
  }

  lemma WordSumStep(rs: seq<D.Record>, r: D.Record)
    requires AllStorable(rs) && Storable(r)
    ensures AllStorable(rs + [r]) && WordSum(rs + [r]) == WordSum(rs) + RecordSum(r)
  {
    assert (rs + [r])[..|rs|] == rs;
    WordsAppend(EncodeRecords(rs), EncodeRecord(r));
    SumAppend(Words(EncodeRecords(rs)), Words(EncodeRecord(r)));
  }

  /** LogRecord::computeChkSum: the words of the record in memory, added up with wrap-around. */
  method ComputeChkSum(r: D.Record) returns (chkSum: nat)
    requires Storable(r)
    ensures chkSum == RecordSum(r) % WORD
  {
    var itr := Words(EncodeRecord(r));
    chkSum := 0;
    var i := 0;
    while i < |itr|
      invariant 0 <= i <= |itr|
      invariant chkSum == Sum(itr[..i]) % WORD
    {
      assert itr[..i + 1][..i] == itr[..i];
      chkSum := (chkSum + itr[i]) % WORD;
      i := i + 1;
    }
    assert itr[..i] == itr;
  }

  /** LogHeader; len_val_ is the constant VAL_SIZE. */
  class LogHeader {
    var chkSum: nat
    var logRecNum: nat

    ghost predicate Valid()
      reads this
    {
      chkSum < WORD && logRecNum < WORD
    }

    constructor ()
      ensures Valid() && chkSum == 0 && logRecNum == 0
    {
      chkSum, logRecNum := 0, 0;
    }

    /** chkSum_ += ... */
    method Add(sum: nat)
      requires Valid()
      modifies this`chkSum
      ensures Valid() && chkSum == (old(chkSum) + sum) % WORD
    {
      chkSum := (chkSum + sum) % WORD;
    }

    /** Exclusive or with all ones, then one more: the complement on two. */
    method ConvertChkSumIntoComplementOnTwo()
      requires Valid()
      modifies this`chkSum
      ensures Valid() && (old(chkSum) + chkSum) % WORD == 0
    {
      chkSum := WORD - 1 - chkSum;
      chkSum := (chkSum + 1) % WORD;
    }

    /** The header as it lies in memory. */
    function Image(): (bs: seq<Byte>)
      reads this
      ensures |bs| == HEADER_BYTES
    {
      HeaderBytes(chkSum, logRecNum)
    }
  }

  function HeaderBytes(chkSum: nat, logRecNum: nat): (bs: seq<Byte>)
    ensures |bs| == HEADER_BYTES
  {
    Bytes(chkSum, INT_BYTES) + Bytes(logRecNum, INT_BYTES) + Bytes(C.VAL_SIZE, LONG_BYTES)
  }

  // ---- Blocks and files ---------------------------------------------------------------------

  predicate BlockFits(rs: seq<D.Record>) {
    AllStorable(rs) && |rs| < WORD
  }

  function EncodeBlock(rs: seq<D.Record>): (bs: seq<Byte>)
    requires BlockFits(rs)
    ensures |bs| == HEADER_BYTES + D.RECORD_BYTES * |rs|
  {
    HeaderBytes(Complement(WordSum(rs)), |rs|) + EncodeRecords(rs)
  }

  predicate FileFits(blocks: seq<seq<D.Record>>) {
    forall i :: 0 <= i < |blocks| ==> BlockFits(blocks[i])
  }

  function EncodeFile(blocks: seq<seq<D.Record>>): seq<Byte>
    requires FileFits(blocks)
  {
    if blocks == [] then [] else EncodeFile(blocks[..|blocks| - 1]) + EncodeBlock(blocks[|blocks| - 1])
  }

  /** Where the first block of a file ends, going by its header. */
  function FirstEnd(bs: seq<Byte>): (end: nat)
    requires |bs| >= HEADER_BYTES
    ensures end >= HEADER_BYTES && (end - HEADER_BYTES) % D.RECORD_BYTES == 0
  {
    HEADER_BYTES + D.RECORD_BYTES * Number(bs[4..8])
  }

  /** Header checksum and words of the records add up to 0. */
  predicate Closes(chkSum: nat, body: seq<Byte>)
    requires |body| % 4 == 0
  {
    (chkSum + Sum(Words(body))) % WORD == 0
  }

  /** The first block of a file, if it is whole and its checksum is right. */
  function FirstBlock(bs: seq<Byte>): (r: D.Option<nat>)
    ensures r.Some? ==> HEADER_BYTES <= r.value <= |bs| && (r.value - HEADER_BYTES) % D.RECORD_BYTES == 0
  {
    if |bs| < HEADER_BYTES || FirstEnd(bs) > |bs| then D.None
    else if !Closes(Number(bs[..4]), bs[HEADER_BYTES..FirstEnd(bs)]) then D.None
    else D.Some(FirstEnd(bs))
  }

  /** Reading a log file back: the records of its blocks, or nothing when it is damaged. */
  function DecodeFile(bs: seq<Byte>): D.Option<seq<seq<D.Record>>>
    decreases |bs|
  {
    if bs == [] then D.Some([])
    else
      var first := FirstBlock(bs);
      if first.None? then D.None
      else
        var rest := DecodeFile(bs[first.value..]);
        if rest.None? then D.None
        else D.Some([DecodeRecords(bs[HEADER_BYTES..first.value])] + rest.value)
  }

  lemma HeaderReads(chkSum: nat, n: nat)
    requires chkSum < WORD && n < WORD
    ensures var h := HeaderBytes(chkSum, n); Number(h[..4]) == chkSum && Number(h[4..8]) == n
  {
    var h := HeaderBytes(chkSum, n);
    Powers();
    assert h[..4] == Bytes(chkSum, INT_BYTES) && h[4..8] == Bytes(n, INT_BYTES);
    NumberBytes(chkSum, INT_BYTES);
    NumberBytes(n, INT_BYTES);
  }

  /** The checksum that makes the words add up to 0. */
  function Complement(sum: nat): (c: nat)
    ensures c < WORD && (c + sum) % WORD == 0
  {
    SumsToZero(sum);
    (WORD - sum % WORD) % WORD
  }

  lemma SumsToZero(s: nat)
    ensures ((WORD - s % WORD) % WORD + s) % WORD == 0
  {
    if s % WORD != 0 { assert (WORD - s % WORD) % WORD + s == WORD + s / WORD * WORD; }
  }

  lemma Parts(h: seq<Byte>, body: seq<Byte>)
    requires |h| == HEADER_BYTES
    ensures (h + body)[..4] == h[..4] && (h + body)[4..8] == h[4..8] && (h + body)[HEADER_BYTES..] == body
  {
  }

  /** What a block shows its reader. */
  lemma BlockReads(rs: seq<D.Record>)
    requires BlockFits(rs)
    ensures var b := EncodeBlock(rs);
            Number(b[..4]) == Complement(WordSum(rs)) && Number(b[4..8]) == |rs| && b[HEADER_BYTES..] ==
                EncodeRecords(rs)
  {
    HeaderReads(Complement(WordSum(rs)), |rs|);
    Parts(HeaderBytes(Complement(WordSum(rs)), |rs|), EncodeRecords(rs));
  }

  lemma ComplementCloses(rs: seq<D.Record>)
    requires AllStorable(rs)
    ensures Closes(Complement(WordSum(rs)), EncodeRecords(rs))
  {
  }

  /** The header's checksum and the words of the records of a block add up to 0. */
  lemma BlockSumsToZero(rs: seq<D.Record>)
    requires BlockFits(rs)
    ensures EncodeBlock(rs)[HEADER_BYTES..] == EncodeRecords(rs)
    ensures Closes(Number(EncodeBlock(rs)[..4]), EncodeRecords(rs))
  {
    BlockReads(rs);
    ComplementCloses(rs);
  }

  /** A block is recognised in front of whatever follows it. */
  lemma FirstBlockIs(rs: seq<D.Record>, rest: seq<Byte>)
    requires BlockFits(rs)
    ensures FirstBlock(EncodeBlock(rs) + rest) == D.Some(|EncodeBlock(rs)|)
  {
    HeaderReads(Complement(WordSum(rs)), |rs|);
    FirstBlockFrom(HeaderBytes(Complement(WordSum(rs)), |rs|), rs, rest);
  }

  lemma FirstBlockFrom(h: seq<Byte>, rs: seq<D.Record>, rest: seq<Byte>)
    requires BlockFits(rs) && |h| == HEADER_BYTES
    requires Number(h[..4]) == Complement(WordSum(rs)) && Number(h[4..8]) == |rs|
    ensures FirstBlock((h + EncodeRecords(rs)) + rest) == D.Some(HEADER_BYTES + |EncodeRecords(rs)|)
  {
    ComplementCloses(rs);
    FirstBlockAt(h, EncodeRecords(rs), rest, Complement(WordSum(rs)), |rs|);
  }

  lemma FirstBlockAt(h: seq<Byte>, body: seq<Byte>, rest: seq<Byte>, c: nat, n: nat)
    requires |h| == HEADER_BYTES && |body| == D.RECORD_BYTES * n && Number(h[..4]) == c && Number(h[4..8]) == n
    requires Closes(c, body)
    ensures FirstBlock((h + body) + rest) == D.Some(HEADER_BYTES + |body|)
  {
    var bs := (h + body) + rest;
    Slices(h, body, rest);
    assert FirstEnd(bs) == HEADER_BYTES + |body|;
  }

  lemma Slices(h: seq<Byte>, body: seq<Byte>, rest: seq<Byte>)
    requires |h| == HEADER_BYTES
    ensures var bs := (h + body) + rest;
            bs[..4] == h[..4] && bs[4..8] == h[4..8] && bs[HEADER_BYTES..HEADER_BYTES + |body|] == body
  {
  }

  /** What was written decodes to the records that were written, block by block. */
  lemma FileRoundTrip(blocks: seq<seq<D.Record>>)
    requires FileFits(blocks)
    ensures DecodeFile(EncodeFile(blocks)) == D.Some(blocks)
  {
    DecodePrefix(blocks, [], []);
    assert EncodeFile(blocks) + [] == EncodeFile(blocks);
    assert blocks + [] == blocks;
  }

  /** A log file has one reading only: different blocks never give the same bytes. */
  lemma FileReadsOneWay(a: seq<seq<D.Record>>, b: seq<seq<D.Record>>)
    requires FileFits(a) && FileFits(b) && EncodeFile(a) == EncodeFile(b)
    ensures a == b
  {
    FileRoundTrip(a);
    FileRoundTrip(b);
  }

  /** Blocks in front of readable bytes. */
  lemma {:induction false} DecodePrefix(blocks: seq<seq<D.Record>>, bs: seq<Byte>, tail: seq<seq<D.Record>>)
    requires FileFits(blocks) && DecodeFile(bs) == D.Some(tail)
    ensures DecodeFile(EncodeFile(blocks) + bs) == D.Some(blocks + tail)
    decreases |blocks|
  {
    if blocks == [] {
      assert EncodeFile(blocks) + bs == bs && blocks + tail == tail;
    } else {
      var n := |blocks| - 1;
      DecodeOne(blocks[n], bs, tail);
      DecodePrefix(blocks[..n], EncodeBlock(blocks[n]) + bs, [blocks[n]] + tail);
      Associates(EncodeFile(blocks[..n]), EncodeBlock(blocks[n]), bs);
      LastApart(blocks, tail);
    }
  }

  lemma LastApart<T>(a: seq<T>, b: seq<T>)
    requires a != []
    ensures a[..|a| - 1] + ([a[|a| - 1]] + b) == a + b
  {
  }

  lemma Associates<T>(a: seq<T>, b: seq<T>, c: seq<T>)
    ensures (a + b) + c == a + (b + c)
  {
  }

  lemma DecodeOne(rs: seq<D.Record>, bs: seq<Byte>, tail: seq<seq<D.Record>>)
    requires BlockFits(rs) && DecodeFile(bs) == D.Some(tail)
    ensures DecodeFile(EncodeBlock(rs) + bs) == D.Some([rs] + tail)
  {
    var b := EncodeBlock(rs);
    FirstBlockIs(rs, bs);
    assert (b + bs)[|b|..] == bs;
    assert (b + bs)[HEADER_BYTES..|b|] == EncodeRecords(rs);
    RecordsRoundTrip(rs);
  }

  // ---- A file that ends in the middle of a block --------------------------------------------

  /** Reading a file as far as its blocks are whole and their checksums right. */
  function WholeBlocks(bs: seq<Byte>): seq<seq<D.Record>>
    decreases |bs|
  {
    var first := FirstBlock(bs);
    if first.None? then []
    else [DecodeRecords(bs[HEADER_BYTES..first.value])] + WholeBlocks(bs[first.value..])
  }

  /** A block of which the end is missing is not taken for one. */
  lemma TornBlock(rs: seq<D.Record>, torn: seq<Byte>)
    requires BlockFits(rs) && torn <= EncodeBlock(rs) && torn != EncodeBlock(rs)
    ensures FirstBlock(torn).None?
  {
    BlockReads(rs);
    if |torn| >= HEADER_BYTES { assert torn[4..8] == EncodeBlock(rs)[4..8]; }
  }

  lemma {:induction false} WholeRead(blocks: seq<seq<D.Record>>, torn: seq<Byte>, tail: seq<seq<D.Record>>)
    requires FileFits(blocks) && WholeBlocks(torn) == tail
    ensures WholeBlocks(EncodeFile(blocks) + torn) == blocks + tail
    decreases |blocks|
  {
    if blocks == [] {
      assert EncodeFile(blocks) + torn == torn && blocks + tail == tail;
    } else {
      var n := |blocks| - 1;
      WholeOne(blocks[n], torn, tail);
      WholeRead(blocks[..n], EncodeBlock(blocks[n]) + torn, [blocks[n]] + tail);
      Associates(EncodeFile(blocks[..n]), EncodeBlock(blocks[n]), torn);
      LastApart(blocks, tail);
    }
  }

  lemma WholeOne(rs: seq<D.Record>, bs: seq<Byte>, tail: seq<seq<D.Record>>)
    requires BlockFits(rs) && WholeBlocks(bs) == tail
    ensures WholeBlocks(EncodeBlock(rs) + bs) == [rs] + tail
  {
    var b := EncodeBlock(rs);
    FirstBlockIs(rs, bs);
    assert (b + bs)[|b|..] == bs;
    assert (b + bs)[HEADER_BYTES..|b|] == EncodeRecords(rs);
    RecordsRoundTrip(rs);
  }

  /** Any beginning of a file that has its first n blocks reads as that many blocks or more. */
  lemma {:induction false} BeginningReads(blocks: seq<seq<D.Record>>, n: nat, bs: seq<Byte>) returns (k: nat)
    requires FileFits(blocks) && n <= |blocks| && bs <= EncodeFile(blocks) && |EncodeFile(blocks[..n])| <= |bs|
    ensures n <= k <= |blocks| && WholeBlocks(bs) == blocks[..k]
    decreases |blocks|
  {
    var m := |blocks| - 1;
    if n == |blocks| || bs == EncodeFile(blocks) {
      assert blocks[..|blocks|] == blocks;
      assert bs == EncodeFile(blocks) + [];
      WholeRead(blocks, [], []);
      k := |blocks|;
    } else if |bs| >= |EncodeFile(blocks[..m])| {
      k := m;
      EndTorn(blocks, bs);
    } else {
      assert blocks[..m][..n] == blocks[..n];
      k := BeginningReads(blocks[..m], n, bs);
      assert blocks[..m][..k] == blocks[..k];
    }
  }

  lemma EndTorn(blocks: seq<seq<D.Record>>, bs: seq<Byte>)
    requires FileFits(blocks) && blocks != [] && bs <= EncodeFile(blocks) && bs != EncodeFile(blocks)
    requires |bs| >= |EncodeFile(blocks[..|blocks| - 1])|
    ensures WholeBlocks(bs) == blocks[..|blocks| - 1]
  {
    var m := |blocks| - 1;
    var whole := EncodeFile(blocks[..m]);
    var torn := bs[|whole|..];
    assert EncodeFile(blocks) == whole + EncodeBlock(blocks[m]);
    assert bs == whole + torn && torn == EncodeBlock(blocks[m])[..|torn|];
    TornBlock(blocks[m], torn);
    WholeRead(blocks[..m], torn, []);
  }
}
