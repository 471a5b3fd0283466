/** The queue between workers and their logger (include/log_queue.h): a map from epoch to the buffers
    filed under it, read in the order of its keys. */
module LogQueues {
  import D = LogModel
  import DI = LogInv

  type BufferMap = map<nat, seq<D.Buffer>>

  /** Every buffer is filed under its min_epoch_, and no entry is empty. */
  ghost predicate Filed(m: BufferMap) {
    forall k :: k in m ==> m[k] != [] && forall i :: 0 <= i < |m[k]| ==> m[k][i].minEpoch == k
  }

  ghost predicate IsFirst(m: BufferMap, k: nat) {
    k in m && forall j :: j in m ==> k <= j
  }

  lemma {:induction false} HasFirst(m: BufferMap)
    requires m != map[]
    ensures exists k :: IsFirst(m, k)
    decreases |m|
  {
    var k :| k in m;
    var rest := m - {k};
    assert m.Keys == {k} + rest.Keys;
    if rest == map[] {
      assert IsFirst(m, k);
    } else {
      HasFirst(rest);
      var j :| IsFirst(rest, j);
      assert forall i :: i in m ==> i == k || i in rest;
      assert IsFirst(m, if k < j then k else j);
    }
  }

  /** `cbegin()->first` */
  ghost function First(m: BufferMap): (k: nat)
    requires m != map[]
    ensures IsFirst(m, k)
  {
    HasFirst(m);
    var k :| IsFirst(m, k);
    k
  }

  lemma FirstIs(m: BufferMap, k: nat)
    requires IsFirst(m, k)
    ensures m != map[] && First(m) == k
  {
    assert m != map[];
    assert IsFirst(m, First(m));
  }

  /** All buffers, key by key. */
  ghost function Flatten(m: BufferMap): seq<D.Buffer>
    decreases |m|
  {
    if m == map[] then [] else m[First(m)] + Flatten(m - {First(m)})
  }

  /** `queue_[key].emplace_back(b)` */
  function Filing(m: BufferMap, b: D.Buffer): BufferMap {
    m[b.minEpoch := (if b.minEpoch in m then m[b.minEpoch] else []) + [b]]
  }

  // ---- Filing by key is inserting in order --------------------------------------------------

  lemma {:induction false} FlattenKeys(m: BufferMap)
    requires Filed(m)
    ensures forall i :: 0 <= i < |Flatten(m)| ==> Flatten(m)[i].minEpoch in m
    decreases |m|
  {
    if m != map[] {
      var k := First(m);
      FlattenKeys(m - {k});
      forall i | 0 <= i < |Flatten(m)| ensures Flatten(m)[i].minEpoch in m {
        if i >= |m[k]| { assert Flatten(m)[i] == Flatten(m - {k})[i - |m[k]|]; }
      }
    }
  }

  /** Buffers of higher keys all stay behind. */
  lemma {:induction false} EnqInFront(q: seq<D.Buffer>, b: D.Buffer)
    requires forall i :: 0 <= i < |q| ==> b.minEpoch < q[i].minEpoch
    ensures D.Enq(q, b) == [b] + q
  {
    if q != [] { EnqInFront(q[..|q| - 1], b); }
  }

  /** Buffers of the same or lower keys all stay in front. */
  lemma {:induction false} EnqBehind(p: seq<D.Buffer>, q: seq<D.Buffer>, b: D.Buffer)
    requires forall i :: 0 <= i < |p| ==> p[i].minEpoch <= b.minEpoch
    ensures D.Enq(p + q, b) == p + D.Enq(q, b)
    decreases |q|
  {
    if q == [] {
      assert p + q == p;
    } else {
      var n := |q| - 1;
      assert (p + q)[..|p + q| - 1] == p + q[..n] && (p + q)[|p + q| - 1] == q[n];
      if q[n].minEpoch > b.minEpoch { EnqBehind(p, q[..n], b); }
    }
  }

  /** A map split at its first key. */
  lemma FlattenFrom(m: BufferMap, k: nat, p: seq<D.Buffer>)
    requires IsFirst(m, k) && m[k] == p
    ensures Flatten(m) == p + Flatten(m - {k})
  {
    FirstIs(m, k);
  }

  /** The map with its first entry longer, or with an entry before the first. */
  lemma FilingFirst(m: BufferMap, b: D.Buffer)
    requires Filed(m) && (m == map[] || b.minEpoch <= First(m))
    ensures Flatten(Filing(m, b)) == D.Enq(Flatten(m), b)
  {
    var k := b.minEpoch;
    var rest := m - {k};
    var p := if k in m then m[k] else [];
    SplitFirst(m, k);
    FilingRest(m, b);
    assert IsFirst(Filing(m, b), k) && Filing(m, b)[k] == p + [b];
    FlattenFrom(Filing(m, b), k, p + [b]);
    RestAbove(m, k);
    InsertBetween(p, Flatten(rest), b);
  }

  lemma SplitFirst(m: BufferMap, k: nat)
    requires m == map[] || k <= First(m)
    ensures Flatten(m) == (if k in m then m[k] else []) + Flatten(m - {k})
  {
    if k in m {
      FirstIs(m, k);
    } else {
      assert m - {k} == m;
    }
  }

  lemma FilingRest(m: BufferMap, b: D.Buffer)
    ensures Filing(m, b) - {b.minEpoch} == m - {b.minEpoch}
  {
  }

  lemma RestAbove(m: BufferMap, k: nat)
    requires Filed(m) && (m == map[] || k <= First(m))
    ensures forall i :: 0 <= i < |Flatten(m - {k})| ==> k < Flatten(m - {k})[i].minEpoch
  {
    FlattenKeys(m - {k});
  }

  lemma InsertBetween(p: seq<D.Buffer>, q: seq<D.Buffer>, b: D.Buffer)
    requires forall i :: 0 <= i < |p| ==> p[i].minEpoch <= b.minEpoch
    requires forall i :: 0 <= i < |q| ==> b.minEpoch < q[i].minEpoch
    ensures D.Enq(p + q, b) == (p + [b]) + q
  {
    EnqInFront(q, b);
    EnqBehind(p, q, b);
    assert p + ([b] + q) == (p + [b]) + q;
  }

  /** enq, seen from deq: filing under the key is inserting behind the last buffer of that key. */
  lemma {:induction false} FilingIsEnq(m: BufferMap, b: D.Buffer)
    requires Filed(m)
    ensures Filed(Filing(m, b)) && Flatten(Filing(m, b)) == D.Enq(Flatten(m), b)
    decreases |m|
  {
    if m == map[] || b.minEpoch <= First(m) {
      FilingFirst(m, b);
    } else {
      var f := First(m);
      FilingIsEnq(m - {f}, b);
      assert Filing(m, b) - {f} == Filing(m - {f}, b);
      FlattenFrom(Filing(m, b), f, m[f]);
      EnqBehind(m[f], Flatten(m - {f}), b);
    }
  }

  // ---- What deq returns ---------------------------------------------------------------------

  /** The queue after a series of enq. */
  function EnqAll(bs: seq<D.Buffer>): seq<D.Buffer> {
    if bs == [] then [] else D.Enq(EnqAll(bs[..|bs| - 1]), bs[|bs| - 1])
  }

  /** The buffers of one key, in order. */
  function WithKey(bs: seq<D.Buffer>, k: nat): seq<D.Buffer> {
    if bs == [] then []
    else WithKey(bs[..|bs| - 1], k) + (if bs[|bs| - 1].minEpoch == k then [bs[|bs| - 1]] else [])
  }

  lemma {:induction false} WithKeyEnq(q: seq<D.Buffer>, b: D.Buffer, k: nat)
    requires DI.InKeyOrder(q)
    ensures WithKey(D.Enq(q, b), k) == WithKey(q + [b], k)
  {
    assert (q + [b])[..|q|] == q;
    if q != [] && q[|q| - 1].minEpoch > b.minEpoch {
      var n := |q| - 1;
      WithKeyEnq(q[..n], b, k);
      var e := D.Enq(q[..n], b);
      assert (e + [q[n]])[..|e|] == e;
      assert (q[..n] + [b])[..n] == q[..n];
    }
  }

  /** deq returns what was enqueued since the last deq, stably sorted by key: in key order, and for each
      key exactly the buffers of that key in the order they came. */
  lemma {:induction false} DeqIsStableSort(bs: seq<D.Buffer>, k: nat)
    ensures DI.InKeyOrder(EnqAll(bs)) && |EnqAll(bs)| == |bs| && WithKey(EnqAll(bs), k) == WithKey(bs, k)
  {
    if bs != [] {
      var n := |bs| - 1;
      DeqIsStableSort(bs[..n], k);
      DI.EnqOrder(EnqAll(bs[..n]), bs[n]);
      DI.EnqMembers(EnqAll(bs[..n]), bs[n]);
      WithKeyEnq(EnqAll(bs[..n]), bs[n], k);
      var e := EnqAll(bs[..n]);
      assert (e + [bs[n]])[..|e|] == e;
    }
  }

  // ---- The class ----------------------------------------------------------------------------

  class LogQueue {
    var queue: BufferMap
    var quit: bool

    ghost predicate Valid()
      reads this
    {
      Filed(queue)
    }

    /** The buffers in the order deq returns them. */
    ghost function Contents(): seq<D.Buffer>
      reads this
    {
      Flatten(queue)
    }

    constructor ()
      ensures Valid() && Contents() == [] && !quit
    {
      queue, quit := map[], false;
    }

    method Enq(b: D.Buffer)
      requires Valid()
      modifies this`queue
      ensures Valid() && Contents() == D.Enq(old(Contents()), b)
    {
      FilingIsEnq(queue, b);
      queue := queue[b.minEpoch := (if b.minEpoch in queue then queue[b.minEpoch] else []) + [b]];
    }

    /** wait_deq without the wait: whether it returns at once. */
    method WaitDeq() returns (r: bool)
      requires Valid()
      ensures r == (quit || Contents() != [])
    {
      r := quit || queue != map[];
    }

    method Quit() returns (r: bool)
      requires Valid()
      ensures r == (quit && Contents() == [])
    {
      r := quit && queue == map[];
    }

    /** Copies and erases entry after entry from the front. */
    method Deq() returns (ret: seq<D.Buffer>)
      requires Valid()
      modifies this`queue
      ensures Valid() && ret == old(Contents()) && Contents() == []
    {
      ret := [];
      while queue != map[]
        invariant Valid() && ret + Contents() == old(Contents())
        decreases |queue|
      {
        HasFirst(queue);
        var itr :| itr in queue && forall j :: j in queue ==> itr <= j;
        FirstIs(queue, itr);
        ret := ret + queue[itr];
        queue := queue - {itr};
      }
    }

    method Empty() returns (e: bool)
      requires Valid()
      ensures e == (Contents() == [])
    {
      e := queue == map[];
    }

    method MinEpoch() returns (m: nat)
      requires Valid()
      ensures m == D.MinEpoch(Contents())
    {
      if queue == map[] {
        m := D.NO_EPOCH;
      } else {
        HasFirst(queue);
        m :| m in queue && forall j :: j in queue ==> m <= j;
        FirstIs(queue, m);
        assert Contents()[0] == queue[m][0];
      }
    }

    method Terminate()
      modifies this`quit
      ensures quit
    {
      quit := true;
    }
  }
}
