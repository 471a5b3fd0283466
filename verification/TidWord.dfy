/** The 64-bit TID word of a tuple (include/tuple.h): five bit fields packed into one integer.

    A word is kept as its fields; `Obj` is the integer the C++ code compares and stores.
    Assigning to a field truncates, as a C++ bit-field assignment does. */
module TidWords {

  const TID_LIMIT := 0x2000_0000        // TID: 29 bits
  const EPOCH_LIMIT := 0x1_0000_0000    // epoch: 32 bits
  const WORD_LIMIT := 0x1_0000_0000_0000_0000

  datatype TidWord = TidWord(epoch: nat, tid: nat, absent: bool, latest: bool, lock: bool) {
    predicate Valid() {
      epoch < EPOCH_LIMIT && tid < TID_LIMIT
    }

    /** The packed integer `obj_`: lock is bit 0, latest bit 1, absent bit 2, TID bits 3..31, epoch bits 32..63. */
    function Obj(): nat {
      epoch * EPOCH_LIMIT + Low()
    }

    /** The low 32 bits of `obj_`. */
    function Low(): nat {
      tid * 8 + Bit(absent) * 4 + Bit(latest) * 2 + Bit(lock)
    }
  }

  function Bit(b: bool): nat {
    if b then 1 else 0
  }

  /** The fields of a 64-bit integer. */
  function Unpack(obj: nat): TidWord {
    TidWord(obj / EPOCH_LIMIT, obj / 8 % TID_LIMIT, obj / 4 % 2 == 1, obj / 2 % 2 == 1, obj % 2 == 1)
  }

  lemma Div2(q: nat, r: nat)
    requires r < 2
    ensures (2 * q + r) / 2 == q && (2 * q + r) % 2 == r
  {
  }

  lemma Div4(q: nat, r: nat)
    requires r < 4
    ensures (4 * q + r) / 4 == q
  {
  }

  lemma Div8(q: nat, r: nat)
    requires r < 8
    ensures (8 * q + r) / 8 == q
  {
  }

  lemma DivTid(q: nat, r: nat)
    requires r < TID_LIMIT
    ensures (q * TID_LIMIT + r) / TID_LIMIT == q && (q * TID_LIMIT + r) % TID_LIMIT == r
  {
  }

  lemma DivEpoch(q: nat, r: nat)
    requires r < EPOCH_LIMIT
    ensures (q * EPOCH_LIMIT + r) / EPOCH_LIMIT == q
  {
  }

  /** Packing and unpacking are inverse, so words and 64-bit integers correspond one to one. */
  lemma UnpackObj(w: TidWord)
    requires w.Valid()
    ensures w.Obj() < WORD_LIMIT && Unpack(w.Obj()) == w
  {
    var k, l, a := Bit(w.lock), Bit(w.latest), Bit(w.absent);
    var o8 := w.epoch * TID_LIMIT + w.tid;
    var o4 := 2 * o8 + a;
    var o2 := 2 * o4 + l;
    assert w.Obj() == 2 * o2 + k == 4 * o4 + (2 * l + k) == 8 * o8 + (4 * a + 2 * l + k);
    Div2(o2, k);
    Div2(o4, l);
    Div2(o8, a);
    Div4(o4, 2 * l + k);
    Div8(o8, 4 * a + 2 * l + k);
    DivTid(w.epoch, w.tid);
    DivEpoch(w.epoch, w.Low());
  }

  lemma ObjUnpack(obj: nat)
    requires obj < WORD_LIMIT
    ensures Unpack(obj).Valid() && Unpack(obj).Obj() == obj
  {
    var w := Unpack(obj);
    var o8, f := obj / 8, obj % 8;
    var e, t := o8 / TID_LIMIT, o8 % TID_LIMIT;
    assert obj == 8 * o8 + f && o8 == e * TID_LIMIT + t;
    DivEpoch(e, 8 * t + f);
    assert w.epoch == e && w.tid == t;
    LowBits(o8, f);
  }

  lemma LowBits(q: nat, f: nat)
    requires f < 8
    ensures var obj := 8 * q + f;
            Bit(obj / 4 % 2 == 1) * 4 + Bit(obj / 2 % 2 == 1) * 2 + Bit(obj % 2 == 1) == f
  {
    var f2, k := f / 2, f % 2;
    var a, l := f2 / 2, f2 % 2;
    Div2(4 * q + f2, k);
    Div2(2 * q + a, l);
    Div2(q, a);
    Div4(2 * q + a, 2 * l + k);
  }

  // ---- Orders -------------------------------------------------------------------------------

  /** `operator <` of the code: comparison of the packed integers. */
  predicate Less(a: TidWord, b: TidWord) {
    a.Obj() < b.Obj()
  }

  /** `std::max`: the first argument unless it is smaller. */
  function Max(a: TidWord, b: TidWord): TidWord {
    if Less(a, b) then b else a
  }

  /** The order that means something to the protocol: epoch, then TID, ignoring the flag bits. */
  predicate Before(a: TidWord, b: TidWord) {
    a.epoch < b.epoch || (a.epoch == b.epoch && a.tid < b.tid)
  }

  predicate SameVersion(a: TidWord, b: TidWord) {
    a.epoch == b.epoch && a.tid == b.tid
  }

  /** The flag bits, as they decide between words of one version. */
  function Flags(w: TidWord): nat {
    Bit(w.absent) * 4 + Bit(w.latest) * 2 + Bit(w.lock)
  }

  /** Order on `obj_` is lexicographic on epoch, TID, absent, latest, lock. */
  lemma LessIsLexicographic(a: TidWord, b: TidWord)
    requires a.Valid() && b.Valid()
    ensures Less(a, b) <==> Before(a, b) || (SameVersion(a, b) && Flags(a) < Flags(b))
  {
    assert a.Low() == a.tid * 8 + Flags(a) && a.Low() < EPOCH_LIMIT;
    assert b.Low() == b.tid * 8 + Flags(b) && b.Low() < EPOCH_LIMIT;
  }

  lemma MaxBounds(a: TidWord, b: TidWord)
    requires a.Valid() && b.Valid()
    ensures Max(a, b) == a || Max(a, b) == b
    ensures !Before(Max(a, b), a) && !Before(Max(a, b), b)
  {
    LessIsLexicographic(a, b);
  }

  // ---- The commit TID -----------------------------------------------------------------------

  /** `TID++` on the 29-bit field, wrap-around included. */
  function Bump(w: TidWord): TidWord {
    w.(tid := (w.tid + 1) % TID_LIMIT)
  }

  /** The commit TID of writePhase: a maximum of three candidates, with the flag bits set afterwards.
      The third candidate stores the 64-bit epoch register in a 32-bit field. */
  function CommitTid(maxWrite: TidWord, maxRead: TidWord, last: TidWord, epoch: nat): TidWord {
    var a := Bump(Max(maxWrite, maxRead));
    var b := Bump(last);
    var c := TidWord(epoch % EPOCH_LIMIT, 0, false, true, false);
    Max(Max(a, b), c).(lock := false, latest := true)
  }

  /** No candidate of the current epoch is about to wrap. */
  ghost predicate Roomy(w: TidWord, epoch: nat) {
    w.epoch == epoch ==> w.tid + 1 < TID_LIMIT
  }

  /** The commit TID lies in the epoch the transaction loaded, whatever the three maxima are. */
  lemma CommitTidEpoch(maxWrite: TidWord, maxRead: TidWord, last: TidWord, epoch: nat)
    requires maxWrite.Valid() && maxRead.Valid() && last.Valid() && epoch < EPOCH_LIMIT
    requires maxWrite.epoch <= epoch && maxRead.epoch <= epoch && last.epoch <= epoch
    ensures var c := CommitTid(maxWrite, maxRead, last, epoch);
            c.Valid() && c.epoch == epoch && c.latest && !c.lock
  {
    MaxBounds(maxWrite, maxRead);
    var a, b := Bump(Max(maxWrite, maxRead)), Bump(last);
    MaxBounds(a, b);
    MaxBounds(Max(a, b), TidWord(epoch % EPOCH_LIMIT, 0, false, true, false));
  }

  /** The commit TID exceeds every word it must exceed exactly when none of them is the last TID of the
      current epoch. Where the 29-bit field is exhausted, `TID++` wraps to 0 and the order is lost. */
  lemma {:induction false} CommitTidExceedsIff(maxWrite: TidWord, maxRead: TidWord, last: TidWord, epoch: nat)
    requires maxWrite.Valid() && maxRead.Valid() && last.Valid() && epoch < EPOCH_LIMIT
    requires maxWrite.epoch <= epoch && maxRead.epoch <= epoch && last.epoch <= epoch
    ensures var c := CommitTid(maxWrite, maxRead, last, epoch);
            Before(maxWrite, c) && Before(maxRead, c) && Before(last, c)
            <==> Roomy(maxWrite, epoch) && Roomy(maxRead, epoch) && Roomy(last, epoch)
  {
    CommitTidEpoch(maxWrite, maxRead, last, epoch);
    MaxBounds(maxWrite, maxRead);
    var m := Max(maxWrite, maxRead);
    var a, b := Bump(m), Bump(last);
    var c0 := TidWord(epoch % EPOCH_LIMIT, 0, false, true, false);
    MaxBounds(a, b);
    MaxBounds(Max(a, b), c0);
  }

  /** Whatever the order of the candidates, the commit TID has the version of one of them. */
  lemma CommitTidOneOf(maxWrite: TidWord, maxRead: TidWord, last: TidWord, epoch: nat)
    ensures var c := CommitTid(maxWrite, maxRead, last, epoch);
            || SameVersion(c, Bump(maxWrite)) || SameVersion(c, Bump(maxRead)) || SameVersion(c, Bump(last))
            || (c.epoch == epoch % EPOCH_LIMIT && c.tid == 0)
  {
    OneOf(maxWrite, maxRead);
    var a, b := Bump(Max(maxWrite, maxRead)), Bump(last);
    OneOf(a, b);
    OneOf(Max(a, b), TidWord(epoch % EPOCH_LIMIT, 0, false, true, false));
  }

  lemma BumpStep(w: TidWord, n: nat)
    requires w.tid <= n
    ensures Bump(w).tid <= n + 1
  {
  }

  lemma OneOf(a: TidWord, b: TidWord)
    ensures Max(a, b) == a || Max(a, b) == b
  {
  }

  /** It takes at most one step beyond the largest TID of its epoch among the three. */
  lemma CommitTidTight(maxWrite: TidWord, maxRead: TidWord, last: TidWord, epoch: nat, n: nat)
    requires maxWrite.Valid() && maxRead.Valid() && last.Valid() && epoch < EPOCH_LIMIT
    requires maxWrite.epoch <= epoch && maxRead.epoch <= epoch && last.epoch <= epoch
    requires forall w :: w in [maxWrite, maxRead, last] && w.epoch == epoch ==> w.tid <= n
    ensures CommitTid(maxWrite, maxRead, last, epoch).tid <= n + 1
  {
    CommitTidEpoch(maxWrite, maxRead, last, epoch);
    CommitTidOneOf(maxWrite, maxRead, last, epoch);
    var c := CommitTid(maxWrite, maxRead, last, epoch);
    forall w | w in [maxWrite, maxRead, last] && SameVersion(c, Bump(w)) ensures c.tid <= n + 1 {
      BumpStep(w, n);
    }
    assert maxWrite in [maxWrite, maxRead, last] && maxRead in [maxWrite, maxRead, last] && last in [maxWrite,
        maxRead, last];
  }
}
