/** A logger and its notifier (logger.cpp, notifier.cpp). Each method runs without interference and is
    shown to take steps of the pipeline. */
module Loggers {
  import opened TidWords
  import opened LogQueues
  import opened LogRuns
  import opened LogWorkers
  import D = LogModel

  lemma RanStep(s: D.State, l: nat, t: D.State, u: D.State)
    requires Ran(s, LoggerThread(l), t) && D.Enabled(t, D.LoggerStep(l)) && D.LoggerStepOf(t, l) == u
    ensures Ran(s, LoggerThread(l), u)
  {
    var v := Extend(s, LoggerThread(l), t, D.LoggerStep(l));
  }

  /** A logger that is not about to write or store is in order whatever else its phase is. */
  ghost predicate Fit(s: D.State, l: nat) {
    l < |s.ls| && forall i :: 0 <= i < |s.ls[l].members| ==> s.ls[l].members[i] < |s.ws|
  }

  /** The least bound so far. */
  function Lower(k: nat, d: nat, low: nat): nat {
    if k == 0 || d < low then d else low
  }

  lemma FoldMore(s0: D.State, s: D.State, l: nat, after: D.After, k: nat, low: nat)
    requires Fit(s, l) && k < |s.ls| && Ran(s0, LoggerThread(l), D.To(s, l, D.Fold(after, k, low)))
    ensures Ran(s0, LoggerThread(l), D.To(s, l, D.Fold(after, k + 1, Lower(k, s.ls[k].durable, low))))
  {
    RanStep(s0, l, D.To(s, l, D.Fold(after, k, low)),
            D.To(s, l, D.Fold(after, k + 1, Lower(k, s.ls[k].durable, low))));
  }

  lemma FoldEnds(s0: D.State, s: D.State, l: nat, after: D.After, low: nat)
    requires Fit(s, l) && Ran(s0, LoggerThread(l), D.To(s, l, D.Fold(after, |s.ls|, low)))
    ensures Ran(s0, LoggerThread(l), D.To(s, l, D.FoldLoad(after, low)))
  {
    RanStep(s0, l, D.To(s, l, D.Fold(after, |s.ls|, low)), D.To(s, l, D.FoldLoad(after, low)));
  }

  /** Load, compare and swap, and the write to the pepoch file. */
  lemma Raised(s0: D.State, s: D.State, l: nat, after: D.After, low: nat)
    requires Fit(s, l) && s.durable < low && Ran(s0, LoggerThread(l), D.To(s, l, D.FoldLoad(after, low)))
    ensures Ran(s0, LoggerThread(l), D.Resume(s, l, after).(durable := low, pepoch := low))
  {
    var t := D.To(s, l, D.FoldCas(after, low, s.durable));
    RanStep(s0, l, D.To(s, l, D.FoldLoad(after, low)), t);
    var u := D.To(s, l, D.FoldWrite(after, low)).(durable := low);
    RanStep(s0, l, t, u);
    RanStep(s0, l, u, D.Resume(s, l, after).(durable := low, pepoch := low));
  }

  lemma NotRaised(s0: D.State, s: D.State, l: nat, after: D.After, low: nat)
    requires Fit(s, l) && low <= s.durable && Ran(s0, LoggerThread(l), D.To(s, l, D.FoldLoad(after, low)))
    ensures Ran(s0, LoggerThread(l), D.Resume(s, l, after))
  {
    RanStep(s0, l, D.To(s, l, D.FoldLoad(after, low)), D.Resume(s, l, after));
  }

  /** The scan after one more word. */
  function Scanned(pc: D.LoggerPc, c: TidWord): D.LoggerPc
    requires pc.ScanWorkers?
  {
    D.ScanWorkers(pc.timeout, pc.k + 1, if c.Obj() > 0 && Less(c, pc.min) then c else pc.min,
                  pc.skipped || c == D.ALL_ONES)
  }

  lemma ScanMore(s0: D.State, s: D.State, l: nat, pc: D.LoggerPc)
    requires Fit(s, l) && pc.ScanWorkers? && pc.k < |s.ls[l].members| && Ran(s0, LoggerThread(l), D.To(s, l, pc))
    ensures Ran(s0, LoggerThread(l), D.To(s, l, Scanned(pc, s.ws[s.ls[l].members[pc.k]].ctidw)))
  {
    RanStep(s0, l, D.To(s, l, pc), D.To(s, l, Scanned(pc, s.ws[s.ls[l].members[pc.k]].ctidw)));
  }

  /** The scan is over: the queue's first key decides, too. */
  lemma ScanEnds(s0: D.State, s: D.State, l: nat, pc: D.LoggerPc)
    requires Fit(s, l) && pc.ScanWorkers? && pc.k >= |s.ls[l].members| && Ran(s0, LoggerThread(l), D.To(s, l, pc))
    ensures Ran(s0, LoggerThread(l), D.To(s, l, ScanResult(s, l, pc)))
  {
    var t := D.To(s, l, D.ScanQueue(pc.timeout, pc.min.epoch, pc.skipped));
    if pc.min.epoch == 0 || pc.min == D.ALL_ONES {
      RanStep(s0, l, D.To(s, l, pc), D.To(s, l, D.Wait));
    } else {
      RanStep(s0, l, D.To(s, l, pc), t);
      RanStep(s0, l, t, D.To(s, l, ScanResult(s, l, pc)));
    }
  }

  function ScanResult(s: D.State, l: nat, pc: D.LoggerPc): D.LoggerPc
    requires l < |s.ls| && pc.ScanWorkers?
  {
    var qe := D.MinEpoch(s.ls[l].queue);
    var bound := if pc.min.epoch > qe then qe else pc.min.epoch;
    if pc.min.epoch == 0 || pc.min == D.ALL_ONES || bound == 0 then D.Wait
    else if pc.timeout then D.Send(bound, pc.skipped)
    else D.Dequeue(bound, pc.skipped)
  }

  // ---- The notifier -------------------------------------------------------------------------

  class Notifier {
    var durableEpoch: nat                       // DurableEpoch
    var pepoch: nat                             // the word in the pepoch file
    const thLocalDurableEpoch: array<nat>       // ThLocalDurableEpoch

    constructor (thLocalDurableEpoch: array<nat>)
      ensures durableEpoch == 0 && pepoch == 0 && this.thLocalDurableEpoch == thLocalDurableEpoch
    {
      durableEpoch, pepoch, this.thLocalDurableEpoch := 0, 0, thLocalDurableEpoch;
    }

    ghost predicate Shows(s: D.State)
      reads this, thLocalDurableEpoch
    {
      && durableEpoch == s.durable && pepoch == s.pepoch
      && thLocalDurableEpoch.Length == |s.ls| > 0
      && forall i :: 0 <= i < |s.ls| ==> thLocalDurableEpoch[i] == s.ls[i].durable
    }

    /** The minimum over the loggers; DurableEpoch is raised to it and written out. */
    method CheckDurable(ghost s: D.State, ghost l: nat, ghost after: D.After) returns (minDl: nat)
      requires Shows(s) && Fit(s, l)
      modifies this`durableEpoch, this`pepoch
      ensures forall i :: 0 <= i < thLocalDurableEpoch.Length ==> minDl <= thLocalDurableEpoch[i]
      ensures exists i :: 0 <= i < thLocalDurableEpoch.Length && minDl == thLocalDurableEpoch[i]
      ensures durableEpoch == if old(durableEpoch) < minDl then minDl else old(durableEpoch)
      ensures pepoch == if old(durableEpoch) < minDl then minDl else old(pepoch)
      ensures Ran(D.To(s, l, D.Fold(after, 0, 0)), LoggerThread(l),
                  D.Resume(s, l, after).(durable := durableEpoch, pepoch := pepoch))
    {
      ghost var s0 := D.To(s, l, D.Fold(after, 0, 0));
      RanNone(s0, LoggerThread(l));
      minDl := thLocalDurableEpoch[0];
      FoldMore(s0, s, l, after, 0, 0);
      var i := 1;
      while i < thLocalDurableEpoch.Length
        invariant 1 <= i <= thLocalDurableEpoch.Length
        invariant forall k :: 0 <= k < i ==> minDl <= thLocalDurableEpoch[k]
        invariant exists k :: 0 <= k < i && minDl == thLocalDurableEpoch[k]
        invariant Ran(s0, LoggerThread(l), D.To(s, l, D.Fold(after, i, minDl)))
        invariant durableEpoch == old(durableEpoch) && pepoch == old(pepoch)
      {
        FoldMore(s0, s, l, after, i, minDl);
        var dl := thLocalDurableEpoch[i];
        if dl < minDl { minDl := dl; }
        i := i + 1;
      }
      FoldEnds(s0, s, l, after, minDl);
      var d := durableEpoch;
      if d < minDl {
        var b := durableEpoch == d;       // compare and swap
        if b { durableEpoch := minDl; }
        if b { pepoch := minDl; }
        Raised(s0, s, l, after, minDl);
      } else {
        NotRaised(s0, s, l, after, minDl);
      }
    }
  }

  // ---- The logger ---------------------------------------------------------------------------

  /** What sending a bound begins. */
  function Sent(s: D.State, l: nat, bound: nat, skipped: bool): D.LoggerPc
    requires l < |s.ls|
  {
    if bound != 0 && bound != D.NO_EPOCH && s.ls[l].durable < bound - 1
    then D.Fold(D.StoreNext(bound, skipped), 0, 0) else D.Wait
  }

  lemma SendStarts(s: D.State, l: nat, bound: nat, skipped: bool)
    requires Fit(s, l)
    ensures Ran(D.To(s, l, D.Send(bound, skipped)), LoggerThread(l), D.To(s, l, Sent(s, l, bound, skipped)))
  {
    var t := D.To(s, l, D.Send(bound, skipped));
    RanNone(t, LoggerThread(l));
    RanStep(t, l, t, D.To(s, l, Sent(s, l, bound, skipped)));
  }

  lemma BoundStored(s0: D.State, s: D.State, l: nat, bound: nat, skipped: bool, d: nat, p: nat) returns (s': D.State)
    requires Fit(s, l) && bound > 0
    requires Ran(s0, LoggerThread(l), D.To(s, l, D.Fold(D.StoreNext(bound, skipped), 0, 0)))
    requires Ran(D.To(s, l, D.Fold(D.StoreNext(bound, skipped), 0, 0)), LoggerThread(l),
                 D.Resume(s, l, D.StoreNext(bound, skipped)).(durable := d, pepoch := p))
    ensures Ran(s0, LoggerThread(l), s') && |s'.ls| == |s.ls|
    ensures s' == D.SetL(s, l, s'.ls[l]).(durable := d, pepoch := p)
    ensures s'.ls[l] == s.ls[l].(pc := D.Wait, durable := bound - 1, blind := s.ls[l].blind || skipped)
  {
    var t := D.Resume(s, l, D.StoreNext(bound, skipped)).(durable := d, pepoch := p);
    RanThen(s0, LoggerThread(l), D.To(s, l, D.Fold(D.StoreNext(bound, skipped), 0, 0)), t);
    s' := D.StoreBoundStep(t, l);
    RanStep(s0, l, t, s');
  }

  lemma Woken(s: D.State, l: nat, pc: D.LoggerPc)
    requires Fit(s, l) && s.ls[l].pc.Wait? && s.ls[l].queue != []
    requires Ran(D.To(s, l, D.ScanWorkers(false, 0, D.ALL_ONES, false)), LoggerThread(l), D.To(s, l, pc))
    ensures Ran(s, LoggerThread(l), D.To(s, l, pc))
  {
    var t := D.To(s, l, D.ScanWorkers(false, 0, D.ALL_ONES, false));
    RanNone(s, LoggerThread(l));
    RanStep(s, l, s, t);
    RanThen(s, LoggerThread(l), t, D.To(s, l, pc));
  }

  lemma Dequeued(s0: D.State, s: D.State, l: nat) returns (s': D.State)
    requires Fit(s, l) && s.ls[l].pc.Dequeue? && Ran(s0, LoggerThread(l), s)
    ensures s' == D.DequeueStep(s, l) && Ran(s0, LoggerThread(l), s')
  {
    s' := D.DequeueStep(s, l);
    RanStep(s0, l, s, s');
  }

  lemma Wrote(s0: D.State, s: D.State, l: nat) returns (s': D.State)
    requires Fit(s, l) && s.ls[l].pc.WriteOut? && s.ls[l].pc.batch != []
    requires s.ls[l].pc.batch[0].owner < |s.ws| && Ran(s0, LoggerThread(l), s)
    ensures s' == D.WriteOutStep(s, l) && Ran(s0, LoggerThread(l), s') && |s'.ws| == |s.ws| && |s'.ls| == |s.ls|
    ensures s'.ls[l].pc == s.ls[l].pc.(batch := s.ls[l].pc.batch[1..])
  {
    s' := D.WriteOutStep(s, l);
    RanStep(s0, l, s, s');
  }

  /** The batch is written out; fsync. */
  lemma Flushed(s0: D.State, s: D.State, l: nat) returns (s': D.State)
    requires Fit(s, l) && s.ls[l].pc.WriteOut? && s.ls[l].pc.batch == [] && Ran(s0, LoggerThread(l), s)
    ensures |s'.ls| == |s.ls| && s' == D.SetL(s, l, s'.ls[l]) && Ran(s0, LoggerThread(l), s')
    ensures s'.ls[l] == s.ls[l].(pc := D.Send(s.ls[l].pc.bound, s.ls[l].pc.skipped), synced := |s.ls[l].file|)
  {
    var t := D.To(s, l, D.Sync(s.ls[l].pc.bound, s.ls[l].pc.skipped));
    RanStep(s0, l, s, t);
    s' := D.SetL(s, l, s.ls[l].(pc := D.Send(s.ls[l].pc.bound, s.ls[l].pc.skipped), synced := |s.ls[l].file|));
    RanStep(s0, l, t, s');
  }

  /** The block that a buffer makes, if it holds anything. */
  function BlockOf(b: D.Buffer): seq<D.Block> {
    if D.Size(b) == 0 then [] else [D.Block(b.owner, b.pushes)]
  }

  /** The blocks that the first n buffers of a batch make. */
  function BlocksTo(bs: seq<D.Buffer>, n: nat): seq<D.Block>
    requires n <= |bs|
  {
    if n == 0 then [] else BlocksTo(bs, n - 1) + BlockOf(bs[n - 1])
  }

  function Blocks(bs: seq<D.Buffer>): seq<D.Block> {
    BlocksTo(bs, |bs|)
  }

  lemma BlocksMore(f: seq<D.Block>, bs: seq<D.Buffer>, i: nat)
    requires i < |bs|
    ensures f + BlocksTo(bs, i + 1) == (f + BlocksTo(bs, i)) + BlockOf(bs[i])
    ensures bs[i..] != [] && bs[i..][0] == bs[i] && bs[i..][1..] == bs[i + 1..]
  {
  }

  /** m is the least of the words other than 0, or ~0 if none is below it. */
  ghost predicate IsLeast(m: TidWord, words: seq<TidWord>) {
    && (m == D.ALL_ONES || (m in words && m.Obj() > 0 && Less(m, D.ALL_ONES)))
    && forall i :: 0 <= i < |words| && words[i].Obj() > 0 ==> !Less(words[i], m)
  }

  lemma LeastMore(m: TidWord, words: seq<TidWord>, i: nat)
    requires i < |words| && IsLeast(m, words[..i])
    ensures IsLeast(if words[i].Obj() > 0 && Less(words[i], m) then words[i] else m, words[..i + 1])
  {
    assert words[..i + 1] == words[..i] + [words[i]];
  }

  /** One turn of the scan: the next word, and the least so far. */
  lemma ScanNext(s0: D.State, s: D.State, l: nat, pc: D.LoggerPc, words: seq<TidWord>)
    requires Fit(s, l) && pc.ScanWorkers? && pc.k < |s.ls[l].members| == |words|
    requires Ran(s0, LoggerThread(l), D.To(s, l, pc))
    requires words[pc.k] == s.ws[s.ls[l].members[pc.k]].ctidw && IsLeast(pc.min, words[..pc.k])
    ensures var next := Scanned(pc, words[pc.k]);
            Ran(s0, LoggerThread(l), D.To(s, l, next)) && next.k == pc.k + 1 && IsLeast(next.min, words[..pc.k + 1])
  {
    ScanMore(s0, s, l, pc);
    LeastMore(pc.min, words, pc.k);
  }

  /** What find_min_epoch makes of the least word and the queue's first key. */
  function Bound(m: TidWord, qe: nat): nat {
    if m.epoch == 0 || m == D.ALL_ONES then 0 else if m.epoch > qe then qe else m.epoch
  }

  ghost predicate IsBound(bound: nat, words: seq<TidWord>, qe: nat) {
    exists m :: IsLeast(m, words) && bound == Bound(m, qe)
  }

  /** Of valid words it is the least epoch of all that are in use, or that of the queue if it is less. */
  lemma BoundIsLeast(bound: nat, words: seq<TidWord>, qe: nat, i: nat)
    requires IsBound(bound, words, qe) && i < |words| && words[i].Valid() && words[i].Obj() > 0 && bound > 0
    requires forall j :: 0 <= j < |words| ==> words[j].Valid()
    ensures bound <= qe && bound <= words[i].epoch
    ensures bound == qe || exists j :: 0 <= j < |words| && bound == words[j].epoch
  {
    var m :| IsLeast(m, words) && bound == Bound(m, qe);
    LessIsLexicographic(words[i], m);
  }

  /** A bound d once min_epoch has been sent. */
  function SentBound(d: nat, minEpoch: nat): nat {
    if minEpoch != D.NO_EPOCH && d + 1 < minEpoch then minEpoch - 1 else d
  }

  class Logger {
    const thid: nat
    var thidVec: seq<nat>
    var thidSet: set<nat>
    const queue: LogQueue
    const notifier: Notifier
    const ctidw: array<TidWord>
    const pools: seq<LogBufferPool>       // the pools of all workers
    var file: seq<D.Block>                // data.log
    var synced: nat

    ghost predicate Shows(s: D.State)
      reads this, queue, notifier, notifier.thLocalDurableEpoch, ctidw, pools
    {
      ShowsPipe(s) && s.ls[thid].members == thidVec && s.ls[thid].running == thidSet
    }

    /** All but the workers it has registered. */
    ghost predicate ShowsPipe(s: D.State)
      reads this, queue, notifier, notifier.thLocalDurableEpoch, ctidw, pools
    {
      && queue.Valid() && notifier.Shows(s) && Fit(s, thid)
      && s.ls[thid].queue == queue.Contents() && s.ls[thid].quit == queue.quit
      && s.ls[thid].file == file && s.ls[thid].synced == synced
      && ctidw.Length == |s.ws| == |pools|
      && (forall w :: 0 <= w < |s.ws| ==> ctidw[w] == s.ws[w].ctidw && pools[w].pool == s.ws[w].free)
      && (forall v, w :: 0 <= v < w < |pools| ==> pools[v] != pools[w])
    }

    constructor (thid: nat, queue: LogQueue, notifier: Notifier, ctidw: array<TidWord>, pools: seq<LogBufferPool>)
      ensures this.thid == thid && this.queue == queue && this.notifier == notifier
      ensures this.ctidw == ctidw && this.pools == pools
      ensures thidVec == [] && thidSet == {} && file == [] && synced == 0
    {
      this.thid, this.queue, this.notifier, this.ctidw, this.pools := thid, queue, notifier, ctidw, pools;
      thidVec, thidSet, file, synced := [], {}, [], 0;
    }

    /** The logger is as the pipeline has it with these workers registered and none of them ended. */
    ghost predicate Registered(members: seq<nat>)
      reads this
    {
      thidVec == D.InitLogger(members).members && thidSet == D.InitLogger(members).running
    }

    method AddTxExecutor(w: nat)
      modifies this`thidVec, this`thidSet
      ensures forall members: seq<nat> :: old(Registered(members)) ==> Registered(members + [w])
    {
      thidVec := thidVec + [w];
      thidSet := thidSet + {w};
    }

    /** The workers of a node register one after the other; then a new logger is what the pipeline starts from. */
    method AddAll(ws: seq<nat>, ghost s: D.State)
      requires ShowsPipe(s) && s.ls[thid] == D.InitLogger(ws) && Registered([])
      modifies this`thidVec, this`thidSet
      ensures Shows(s)
    {
      var i := 0;
      while i < |ws|
        invariant 0 <= i <= |ws| && Registered(ws[..i]) && ShowsPipe(s)
      {
        assert ws[..i] + [ws[i]] == ws[..i + 1];
        AddTxExecutor(ws[i]);
        i := i + 1;
      }
      assert ws[..i] == ws;
    }

    /** The CTIDW words of the workers, in the order in which they registered. */
    function Words(): (ws: seq<TidWord>)
      reads this, ctidw
      requires forall i :: 0 <= i < |thidVec| ==> thidVec[i] < ctidw.Length
      ensures |ws| == |thidVec|
    {
      seq(|thidVec|, i requires 0 <= i < |thidVec| reads this, ctidw
                       requires forall i :: 0 <= i < |thidVec| ==> thidVec[i] < ctidw.Length => ctidw[thidVec[i]])
    }

    /** find_min_epoch, lines 94-100: the least CTIDW. */
    method LeastCtid(ghost s: D.State, ghost timeout: bool) returns (minCtid: TidWord, ghost pc: D.LoggerPc)
      requires Shows(s)
      ensures IsLeast(minCtid, Words())
      ensures pc.ScanWorkers? && pc.timeout == timeout && pc.k == |thidVec| && pc.min == minCtid
      ensures Ran(D.To(s, thid, D.ScanWorkers(timeout, 0, D.ALL_ONES, false)), LoggerThread(thid), D.To(s, thid, pc))
    {
      pc := D.ScanWorkers(timeout, 0, D.ALL_ONES, false);
      ghost var s0 := D.To(s, thid, pc);
      RanNone(s0, LoggerThread(thid));
      ghost var words := Words();
      minCtid := D.ALL_ONES;
      var i := 0;
      while i < |thidVec|
        invariant 0 <= i <= |thidVec| && pc.ScanWorkers? && pc.timeout == timeout && pc.k == i && pc.min == minCtid
        invariant Ran(s0, LoggerThread(thid), D.To(s, thid, pc)) && IsLeast(minCtid, words[..i])
      {
        ScanNext(s0, s, thid, pc, words);
        var ctid := ctidw[thidVec[i]];
        pc := Scanned(pc, ctid);
        if ctid.Obj() > 0 && Less(ctid, minCtid) { minCtid := ctid; }
        i := i + 1;
      }
      assert words[..i] == words;
    }

    /** 0, or the least epoch among the published CTIDW and the queue's first key. */
    method FindMinEpoch(ghost s: D.State, ghost timeout: bool) returns (minEpoch: nat, ghost pc: D.LoggerPc)
      requires Shows(s)
      ensures IsBound(minEpoch, Words(), D.MinEpoch(queue.Contents()))
      ensures Ran(D.To(s, thid, D.ScanWorkers(timeout, 0, D.ALL_ONES, false)), LoggerThread(thid), D.To(s, thid, pc))
      ensures if minEpoch == 0 then pc.Wait?
              else if timeout then pc.Send? && pc.bound == minEpoch
              else pc.Dequeue? && pc.bound == minEpoch
    {
      var minCtid;
      minCtid, pc := LeastCtid(s, timeout);
      ScanEnds(D.To(s, thid, D.ScanWorkers(timeout, 0, D.ALL_ONES, false)), s, thid, pc);
      pc := ScanResult(s, thid, pc);
      assert IsBound(Bound(minCtid, D.MinEpoch(queue.Contents())), Words(), D.MinEpoch(queue.Contents()));
      if minCtid.epoch == 0 || minCtid == D.ALL_ONES { return 0, pc; }
      minEpoch := minCtid.epoch;
      var qe := queue.MinEpoch();
      if minEpoch > qe { minEpoch := qe; }
    }

    /** The new bound, if it is one, is stored after the fold; 0 and ~0 are none. */
    method SendNidToNotifier(ghost s: D.State, minEpoch: nat, ghost skipped: bool) returns (ghost s': D.State)
      requires Shows(s)
      modifies notifier`durableEpoch, notifier`pepoch, notifier.thLocalDurableEpoch
      ensures Ran(D.To(s, thid, D.Send(minEpoch, skipped)), LoggerThread(thid), s') && Shows(s') && s'.ls[thid].pc.Wait?
      ensures var d := old(notifier.thLocalDurableEpoch[thid]);
              notifier.thLocalDurableEpoch[thid] == SentBound(d, minEpoch)
      ensures (minEpoch == 0 || minEpoch == D.NO_EPOCH) ==> s' == D.To(s, thid, D.Wait)
      ensures forall i :: 0 <= i < notifier.thLocalDurableEpoch.Length && i != thid ==>
                notifier.thLocalDurableEpoch[i] == old(notifier.thLocalDurableEpoch[i])
    {
      ghost var s0 := D.To(s, thid, D.Send(minEpoch, skipped));
      RanNone(s0, LoggerThread(thid));
      SendStarts(s, thid, minEpoch, skipped);
      s' := D.To(s, thid, D.Wait);
      if minEpoch == 0 || minEpoch == D.NO_EPOCH { return; }
      var newDl := minEpoch - 1;
      var oldDl := notifier.thLocalDurableEpoch[thid];
      if oldDl < newDl {
        var minDl := notifier.CheckDurable(s, thid, D.StoreNext(minEpoch, skipped));
        notifier.thLocalDurableEpoch[thid] := newDl;
        s' := BoundStored(s0, s, thid, minEpoch, skipped, notifier.durableEpoch, notifier.pepoch);
      }
    }

    /** logging, lines 75-80: write the buffer, clean it and return it to its pool. */
    method WriteOne(ghost s0: D.State, ghost s: D.State, b: D.Buffer) returns (ghost s': D.State)
      requires Shows(s) && s.ls[thid].pc.WriteOut? && s.ls[thid].pc.batch != [] && s.ls[thid].pc.batch[0] == b
      requires b.owner < |pools| && Ran(s0, LoggerThread(thid), s)
      modifies this`file, pools
      ensures Ran(s0, LoggerThread(thid), s') && Shows(s')
      ensures s'.ls[thid].pc == D.WriteOut(s.ls[thid].pc.bound, s.ls[thid].pc.skipped, s.ls[thid].pc.batch[1..])
      ensures file == old(file) + BlockOf(b)
    {
      if D.Size(b) != 0 { file := file + [D.Block(b.owner, b.pushes)]; }
      pools[b.owner].ReturnBuffer(D.CleanBuffer(b.owner, b.id, b.used));
      s' := Wrote(s0, s, thid);
    }

    method WriteAll(ghost s0: D.State, ghost s: D.State, logBufferVec: seq<D.Buffer>) returns (ghost s': D.State)
      requires Shows(s) && s.ls[thid].pc.WriteOut?
      requires s.ls[thid].pc.batch == logBufferVec && Ran(s0, LoggerThread(thid), s)
      requires forall i :: 0 <= i < |logBufferVec| ==> logBufferVec[i].owner < |pools|
      modifies this`file, pools
      ensures Ran(s0, LoggerThread(thid), s') && Shows(s')
      ensures s'.ls[thid].pc == D.WriteOut(s.ls[thid].pc.bound, s.ls[thid].pc.skipped, [])
      ensures file == old(file) + Blocks(logBufferVec)
    {
      s' := s;
      ghost var bound, skipped, before := s.ls[thid].pc.bound, s.ls[thid].pc.skipped, file;
      var i := 0;
      assert logBufferVec[0..] == logBufferVec;
      while i < |logBufferVec|
        invariant 0 <= i <= |logBufferVec| && Shows(s')
        invariant s'.ls[thid].pc == D.WriteOut(bound, skipped, logBufferVec[i..])
        invariant Ran(s0, LoggerThread(thid), s') && file == before + BlocksTo(logBufferVec, i)
      {
        BlocksMore(before, logBufferVec, i);
        s' := WriteOne(s0, s', logBufferVec[i]);
        i := i + 1;
      }
    }

    /** logging, lines 66-82: everything in the queue goes to the file and to disk. */
    method WriteLog(ghost s: D.State) returns (ghost s': D.State)
      requires Shows(s) && s.ls[thid].pc.Dequeue?
      requires forall i :: 0 <= i < |queue.Contents()| ==> queue.Contents()[i].owner < |pools|
      modifies this`file, this`synced, queue`queue, pools
      ensures Ran(s, LoggerThread(thid), s') && Shows(s')
      ensures s'.ls[thid].pc == D.Send(s.ls[thid].pc.bound, s.ls[thid].pc.skipped)
      ensures queue.Contents() == [] && file == old(file) + Blocks(old(queue.Contents())) && synced == |file|
    {
      RanNone(s, LoggerThread(thid));
      ghost var t := Dequeued(s, s, thid);
      var logBufferVec := queue.Deq();
      assert Shows(t);
      ghost var u := WriteAll(s, t, logBufferVec);
      synced := |file|;
      s' := Flushed(s, u, thid);
    }

    /** What wait_deq does each time it has waited in vain. */
    method OnTimeout(ghost s: D.State) returns (ghost s': D.State, ghost bound: nat)
      requires Shows(s) && s.ls[thid].pc.Wait? && queue.Contents() == [] && !queue.quit
      modifies notifier`durableEpoch, notifier`pepoch, notifier.thLocalDurableEpoch
      ensures D.Enabled(s, D.Timeout(thid)) && Ran(D.Apply(s, D.Timeout(thid)), LoggerThread(thid), s')
      ensures Shows(s') && s'.ls[thid].pc.Wait?
      ensures IsBound(bound, old(Words()), D.NO_EPOCH)
      ensures notifier.thLocalDurableEpoch[thid] == SentBound(old(notifier.thLocalDurableEpoch[thid]), bound)
    {
      ghost var pc;
      var minEpoch;
      minEpoch, pc := FindMinEpoch(s, true);
      bound := minEpoch;
      ghost var t := D.To(s, thid, pc);
      s' := SendNidToNotifier(t, minEpoch, if pc.Send? then pc.skipped else false);
      assert minEpoch > 0 ==> D.To(t, thid, pc) == t;
      assert minEpoch == 0 ==> s' == t;
      if minEpoch > 0 { RanThen(D.Apply(s, D.Timeout(thid)), LoggerThread(thid), t, s'); }
    }

    /** One pass of the logger. An empty queue ends it: on the last call, with quit, after the final fold. */
    method Logging(quit: bool, ghost s: D.State) returns (ghost s': D.State, ghost bound: nat)
      requires Shows(s) && s.ls[thid].pc.Wait? && (quit ==> queue.quit && queue.Contents() == [])
      requires forall i :: 0 <= i < |queue.Contents()| ==> queue.Contents()[i].owner < |pools|
      modifies this`file, this`synced, queue`queue, pools
      modifies notifier`durableEpoch, notifier`pepoch, notifier.thLocalDurableEpoch
      ensures Ran(s, LoggerThread(thid), s') && Shows(s')
      ensures if quit then s'.ls[thid].pc.Done? else s'.ls[thid].pc.Wait?
      ensures old(queue.Contents()) != [] ==> IsBound(bound, old(Words()), D.MinEpoch(old(queue.Contents())))
      ensures old(queue.Contents()) == [] ==> bound == 0 && (!quit ==> s' == s)
      ensures notifier.thLocalDurableEpoch[thid] == SentBound(old(notifier.thLocalDurableEpoch[thid]), bound)
      ensures if bound == 0 then queue.Contents() == old(queue.Contents()) && file == old(file) && synced == old(synced)
              else queue.Contents() == [] && file == old(file) + Blocks(old(queue.Contents())) && synced == |file|
    {
      var empty := queue.Empty();
      if empty {
        bound := 0;
        s' := s;
        RanNone(s, LoggerThread(thid));
        if quit { s' := LastFold(s); }
      } else {
        s', bound := Pass(s);
      }
    }

    /** logging(true): nothing is left to write, and the durable epoch is folded once more. */
    method LastFold(ghost s: D.State) returns (ghost s': D.State)
      requires Shows(s) && s.ls[thid].pc.Wait? && queue.quit && queue.Contents() == []
      modifies notifier`durableEpoch, notifier`pepoch
      ensures Ran(s, LoggerThread(thid), s') && Shows(s') && s'.ls[thid].pc.Done?
    {
      RanNone(s, LoggerThread(thid));
      ghost var t := D.To(s, thid, D.Fold(D.EndNext, 0, 0));
      RanStep(s, thid, s, t);
      var minDl := notifier.CheckDurable(s, thid, D.EndNext);
      s' := D.Resume(s, thid, D.EndNext).(durable := notifier.durableEpoch, pepoch := notifier.pepoch);
      RanThen(s, LoggerThread(thid), t, s');
    }

    method Pass(ghost s: D.State) returns (ghost s': D.State, ghost bound: nat)
      requires Shows(s) && s.ls[thid].pc.Wait? && queue.Contents() != []
      requires forall i :: 0 <= i < |queue.Contents()| ==> queue.Contents()[i].owner < |pools|
      modifies this`file, this`synced, queue`queue, pools
      modifies notifier`durableEpoch, notifier`pepoch, notifier.thLocalDurableEpoch
      ensures Ran(s, LoggerThread(thid), s') && Shows(s') && s'.ls[thid].pc.Wait?
      ensures IsBound(bound, old(Words()), D.MinEpoch(old(queue.Contents())))
      ensures notifier.thLocalDurableEpoch[thid] == SentBound(old(notifier.thLocalDurableEpoch[thid]), bound)
      ensures if bound == 0 then queue.Contents() == old(queue.Contents()) && file == old(file) && synced == old(synced)
              else queue.Contents() == [] && file == old(file) + Blocks(old(queue.Contents())) && synced == |file|
    {
      ghost var pc;
      var minEpoch;
      minEpoch, pc := FindMinEpoch(s, false);
      bound := minEpoch;
      Woken(s, thid, pc);
      s' := D.To(s, thid, pc);
      if minEpoch > 0 {
        ghost var t := s';
        s' := WritesAndSends(t, minEpoch);
        RanThen(s, LoggerThread(thid), t, s');
      }
    }

    /** logging, lines 66-89. */
    method WritesAndSends(ghost s: D.State, minEpoch: nat) returns (ghost s': D.State)
      requires Shows(s) && s.ls[thid].pc.Dequeue? && s.ls[thid].pc.bound == minEpoch
      requires forall i :: 0 <= i < |queue.Contents()| ==> queue.Contents()[i].owner < |pools|
      modifies this`file, this`synced, queue`queue, pools
      modifies notifier`durableEpoch, notifier`pepoch, notifier.thLocalDurableEpoch
      ensures Ran(s, LoggerThread(thid), s') && Shows(s') && s'.ls[thid].pc.Wait?
      ensures notifier.thLocalDurableEpoch[thid] == SentBound(old(notifier.thLocalDurableEpoch[thid]), minEpoch)
      ensures queue.Contents() == [] && file == old(file) + Blocks(old(queue.Contents())) && synced == |file|
    {
      ghost var skipped := s.ls[thid].pc.skipped;
      ghost var u := WriteLog(s);
      assert D.To(u, thid, D.Send(minEpoch, skipped)) == u;
      s' := SendNidToNotifier(u, minEpoch, skipped);
      RanThen(s, LoggerThread(thid), u, s');
    }

    /** The last worker to end closes the queue. */
    method WorkerEnd(w: nat)
      modifies this`thidSet, queue`quit
      ensures thidSet == old(thidSet) - {w} && queue.quit == (old(queue.quit) || thidSet == {})
    {
      thidSet := thidSet - {w};
      if thidSet == {} { queue.Terminate(); }
    }
  }
}
