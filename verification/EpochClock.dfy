/** The epoch clock in the code's own form (util.cpp, include/atomic_tool.h), run without interference. */
module EpochClocks {
  import C = CommitModel
  import opened TxExecutors

  ghost predicate Loaded(s: C.State, n: nat) {
    forall j :: 1 <= j < n && j < |s.ws| ==> s.ws[j].localEpoch == s.ge
  }

  /** The scan has got to thread n. */
  lemma {:induction false} Scans(s: C.State, n: nat)
    requires Fit(s, 0) && s.ws[0].pc.Idle? && 1 <= n <= |s.ws| && Loaded(s, n)
    ensures Ran(s, 0, C.At(s, 0, C.Scan(s.ge, n)))
    decreases n
  {
    RanNone(s, 0);
    if n == 1 {
      RanStep(s, 0, s, C.LeaderWork, C.At(s, 0, C.Scan(s.ge, 1)));
    } else {
      Scans(s, n - 1);
      RanStep(s, 0, C.At(s, 0, C.Scan(s.ge, n - 1)), C.Next, C.At(s, 0, C.Scan(s.ge, n)));
    }
  }

  lemma ScanFails(s: C.State, n: nat)
    requires Fit(s, 0) && s.ws[0].pc.Idle? && 1 <= n < |s.ws| && Loaded(s, n) && s.ws[n].localEpoch != s.ge
    ensures Ran(s, 0, s)
  {
    Scans(s, n);
    assert C.At(s, 0, C.Idle) == s;
    RanStep(s, 0, C.At(s, 0, C.Scan(s.ge, n)), C.Next, s);
  }

  lemma Advances(s: C.State)
    requires Fit(s, 0) && s.ws[0].pc.Idle? && Loaded(s, |s.ws|)
    ensures Ran(s, 0, s.(ge := s.ge + 1))
  {
    Scans(s, |s.ws|);
    assert C.At(s, 0, C.Idle) == s;
    RanStep(s, 0, C.At(s, 0, C.Scan(s.ge, |s.ws|)), C.Next, s.(ge := s.ge + 1));
  }

  class EpochClock {
    var globalEpoch: nat               // GlobalEpoch
    const thLocalEpoch: array<nat>     // ThLocalEpoch

    ghost predicate Shows(s: C.State)
      reads this, thLocalEpoch
    {
      && globalEpoch == s.ge && thLocalEpoch.Length == |s.ws|
      && forall w :: 0 <= w < |s.ws| ==> thLocalEpoch[w] == s.ws[w].localEpoch
    }

    constructor (thLocalEpoch: array<nat>)
      ensures globalEpoch == 1 && this.thLocalEpoch == thLocalEpoch
    {
      globalEpoch, this.thLocalEpoch := 1, thLocalEpoch;
    }

    /** Worker 0 looks at everybody but itself. */
    method ChkEpochLoaded(ghost s: C.State) returns (r: bool)
      requires Shows(s) && Fit(s, 0) && s.ws[0].pc.Idle?
      ensures r == forall j :: 1 <= j < thLocalEpoch.Length ==> thLocalEpoch[j] == globalEpoch
      ensures r == Loaded(s, |s.ws|)
      ensures !r ==> Ran(s, 0, s)
    {
      var nowepo := globalEpoch;
      var i := 1;
      while i < thLocalEpoch.Length
        invariant 1 <= i <= thLocalEpoch.Length
        invariant forall j :: 1 <= j < i ==> thLocalEpoch[j] == nowepo
      {
        if thLocalEpoch[i] != nowepo {
          ScanFails(s, i);
          return false;
        }
        i := i + 1;
      }
      return true;
    }

    method AtomicAddGE()
      modifies this`globalEpoch
      ensures globalEpoch == old(globalEpoch) + 1
    {
      var expected := globalEpoch;
      var done := false;
      while !done
        invariant if done then globalEpoch == old(globalEpoch) + 1 else globalEpoch == expected == old(globalEpoch)
        decreases !done
      {
        var desired := expected + 1;
        if globalEpoch == expected {      // compare and swap
          globalEpoch := desired;
          done := true;
        } else {
          expected := globalEpoch;
        }
      }
    }

    /** The clock advances by one, when its time has come and every other worker has seen it. */
    method LeaderWork(ghost s: C.State, timeOver: bool) returns (ghost s': C.State)
      requires Shows(s) && Fit(s, 0) && s.ws[0].pc.Idle?
      modifies this`globalEpoch
      ensures globalEpoch - old(globalEpoch) ==
              if timeOver && forall j :: 1 <= j < thLocalEpoch.Length ==>
                  thLocalEpoch[j] == old(globalEpoch) then 1 else 0
      ensures Ran(s, 0, s') && Shows(s') && s'.ws == s.ws
    {
      RanNone(s, 0);
      s' := s;
      if !timeOver { return; }
      var loaded := ChkEpochLoaded(s);
      if loaded {
        AtomicAddGE();
        Advances(s);
        s' := s.(ge := s.ge + 1);
      }
    }
  }
}
