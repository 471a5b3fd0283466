/** The log side of a worker (log_buffer.cpp, transaction.cpp:276-311): the pool of its buffers and wal.
    Each method runs without interference, up to the point where the code would wait for its logger, and
    is shown to take steps of the pipeline. Buffers are values here; their `id` stands for the pointer. */
module LogWorkers {
  import opened TidWords
  import opened LogQueues
  import opened LogRuns
  import C = CommitModel
  import D = LogModel

  // ---- The pool -----------------------------------------------------------------------------

  /** Publishing changes the worker's phase and its buffer, not its CTIDW or what it pushed. */
  lemma Published(s: D.State, w: nat, pc: D.LogPc)
    requires D.WorkerIn(s, w)
    ensures var s' := D.Publish(s, w, pc);
            w < |s'.ws| && s'.ws[w].pc == pc && s'.ws[w].ctidw == s.ws[w].ctidw && s'.ws[w].hist == s.ws[w].hist
  {
  }

  lemma Appends(s: D.State, w: nat)
    requires D.WorkerIn(s, w) && s.ws[w].pc.WalAppend? && s.ws[w].cur.Some?
    ensures var ctid, push, begins := s.ws[w].pc.ctid, s.ws[w].pc.push, s.ws[w].pc.begins;
            var b := D.Append(s.ws[w].cur.value, ctid, push);
            && D.Enabled(s, D.WorkerStep(w))
            && D.Apply(s, D.WorkerStep(w)) == D.SetW(s, w, s.ws[w].(
                 pc := if D.Size(b) + C.MAX_OPE > D.LOG_BUFFER_SIZE then D.WalFull(ctid, begins)
                       else D.WalStore(ctid, begins),
                 cur := D.Some(b), hist := s.ws[w].hist + (if push == [] then [] else [push])))
  {
    assert s.ws[w].hist + [] == s.ws[w].hist;
  }

  lemma Takes(s: D.State, w: nat)
    requires D.WorkerIn(s, w) && s.ws[w].pc.WalAppend? && s.ws[w].cur.None? && s.ws[w].free != []
    ensures D.Enabled(s, D.WorkerStep(w)) && D.Apply(s, D.WorkerStep(w)) == D.SetW(s, w, D.TakeBuffer(s.ws[w]))
  {
  }

  lemma TakesOn(s0: D.State, s: D.State, w: nat) returns (s': D.State)
    requires D.WorkerIn(s, w) && s.ws[w].pc.WalAppend? && s.ws[w].cur.None? && s.ws[w].free != []
    requires Ran(s0, WorkerThread(w), s)
    ensures s' == D.SetW(s, w, D.TakeBuffer(s.ws[w])) && Ran(s0, WorkerThread(w), s')
  {
    Takes(s, w);
    s' := Extend(s0, WorkerThread(w), s, D.WorkerStep(w));
  }

  class LogBufferPool {
    const thid: nat
    const queue: LogQueue
    var current: D.Option<D.Buffer>
    var pool: seq<D.Buffer>
    var quit: bool

    /** The pool, and the queue it feeds, are those of state s. */
    ghost predicate Shows(s: D.State)
      reads this, queue
    {
      && queue.Valid() && D.WorkerIn(s, thid)
      && s.ws[thid].cur == current && s.ws[thid].free == pool
      && s.ls[s.loggerOf[thid]].queue == queue.Contents()
    }

    constructor (thid: nat, queue: LogQueue)
      ensures this.thid == thid && this.queue == queue && !quit
      ensures current == D.InitWorker(thid).cur && pool == D.InitWorker(thid).free
    {
      this.thid, this.queue, quit := thid, queue, false;
      current := D.Some(D.CleanBuffer(thid, 0, false));
      pool := [];
      new;
      var i := 1;
      while i < D.BUFFER_NUM
        invariant 1 <= i <= D.BUFFER_NUM && pool == D.InitWorker(thid).free[..i - 1]
        invariant current == D.InitWorker(thid).cur && !quit
      {
        pool := pool + [D.CleanBuffer(thid, i, false)];
        i := i + 1;
      }
    }

    method IsReady() returns (r: bool)
      modifies this`current, this`pool
      ensures r == (old(current).Some? || quit || old(pool) != [])
      ensures if old(current).None? && !quit && old(pool) != []
              then current == D.Some(old(pool)[|old(pool)| - 1]) && pool == old(pool)[..|old(pool)| - 1]
              else current == old(current) && pool == old(pool)
    {
      if current.Some? || quit { return true; }
      r := false;
      if pool != [] {
        current := D.Some(pool[|pool| - 1]);
        pool := pool[..|pool| - 1];
        r := true;
      }
    }

    /** With a current buffer, as the assertion demands. */
    method Publish(ghost s: D.State, ghost pc: D.LogPc)
      requires Shows(s) && current.Some?
      modifies this`current, this`pool, queue`queue
      ensures Shows(D.Publish(s, thid, pc))
    {
      var r := IsReady();
      if current.value.used {
        var p := current.value;
        current := D.None;
        queue.Enq(p);
      }
    }

    /** False where the loop waits for the logger to return a buffer. */
    method Push(ghost s0: D.State, ghost s: D.State, tid: TidWord, writeSet: seq<nat>, val: C.Value,
        newEpochBegins: bool)
      returns (done: bool, ghost s': D.State)
      requires Shows(s) && current.Some? && !quit && Ran(s0, WorkerThread(thid), s)
      requires s.ws[thid].pc == if D.Size(current.value) + |writeSet| > D.LOG_BUFFER_SIZE || newEpochBegins
                                then D.WalPublish(tid, D.Records(tid, writeSet, val), newEpochBegins)
                                else D.WalAppend(tid, D.Records(tid, writeSet, val), newEpochBegins)
      modifies this`current, this`pool, queue`queue
      ensures Ran(s0, WorkerThread(thid), s') && Shows(s')
      ensures Pushed(s, s', tid, D.Records(tid, writeSet, val), newEpochBegins, done)
    {
      ghost var pc := D.WalAppend(tid, D.Records(tid, writeSet, val), newEpochBegins);
      s' := s;
      if D.Size(current.value) + |writeSet| > D.LOG_BUFFER_SIZE || newEpochBegins {
        Publish(s', pc);
        s' := Extend(s0, WorkerThread(thid), s', D.WorkerStep(thid));
        Published(s, thid, pc);
      }
      done, s' := PushWhenReady(s0, s', tid, writeSet, val, newEpochBegins);
    }

    /** How push leaves the worker: its records handed over, or waiting for a buffer. */
    ghost predicate Pushed(s: D.State, s': D.State, tid: TidWord, push: D.Push, begins: bool, done: bool)
      requires thid < |s.ws|
      reads this
    {
      && thid < |s'.ws| && s'.ws[thid].ctidw == s.ws[thid].ctidw
      && if done
         then s'.ws[thid].pc == D.WalStore(tid, begins) &&
              s'.ws[thid].hist == s.ws[thid].hist + (if push == [] then [] else [push])
         else s'.ws[thid].pc == D.WalAppend(tid, push, begins) && current == D.None && pool == [] &&
              s'.ws[thid].hist == s.ws[thid].hist
    }

    /** push, lines 16-24. */
    method PushWhenReady(ghost s0: D.State, ghost s: D.State, tid: TidWord, writeSet: seq<nat>, val: C.Value,
        newEpochBegins: bool)
      returns (done: bool, ghost s': D.State)
      requires Shows(s) && !quit && s.ws[thid].pc == D.WalAppend(tid, D.Records(tid, writeSet, val), newEpochBegins)
      requires Ran(s0, WorkerThread(thid), s)
      modifies this`current, this`pool, queue`queue
      ensures Ran(s0, WorkerThread(thid), s') && Shows(s')
      ensures Pushed(s, s', tid, D.Records(tid, writeSet, val), newEpochBegins, done)
    {
      ghost var taking := current.None?;
      s' := s;
      var ready := IsReady();
      if !ready { return false, s'; }
      if taking { s' := TakesOn(s0, s', thid); }
      s' := AppendAll(s0, s', tid, writeSet, val, newEpochBegins);
      return true, s';
    }

    /** push, lines 21-24: append the records, and publish a buffer that is nearly full. */
    method AppendAll(ghost s0: D.State, ghost s: D.State, tid: TidWord, writeSet: seq<nat>, val: C.Value,
        newEpochBegins: bool)
      returns (ghost s': D.State)
      requires Shows(s) && current.Some? && Ran(s0, WorkerThread(thid), s)
      requires s.ws[thid].pc == D.WalAppend(tid, D.Records(tid, writeSet, val), newEpochBegins)
      modifies this`current, this`pool, queue`queue
      ensures Ran(s0, WorkerThread(thid), s') && Shows(s')
      ensures Pushed(s, s', tid, D.Records(tid, writeSet, val), newEpochBegins, true)
    {
      Appends(s, thid);
      current := D.Some(D.Append(current.value, tid, D.Records(tid, writeSet, val)));
      s' := Extend(s0, WorkerThread(thid), s, D.WorkerStep(thid));
      if D.Size(current.value) + C.MAX_OPE > D.LOG_BUFFER_SIZE {
        Published(s', thid, D.WalStore(tid, newEpochBegins));
        Publish(s', D.WalStore(tid, newEpochBegins));
        s' := Extend(s0, WorkerThread(thid), s', D.WorkerStep(thid));
      }
    }

    method ReturnBuffer(b: D.Buffer)
      modifies this`pool
      ensures pool == old(pool) + [b]
    {
      pool := pool + [b];
    }

    /** What is left in the current buffer goes to the queue. */
    method Terminate(ghost s: D.State)
      requires Shows(s)
      modifies this`current, this`pool, this`quit, queue`queue
      ensures quit && Shows(D.Publish(s, thid, D.Ending))
    {
      quit := true;
      if current.Some? {
        if current.value.used { Publish(s, D.Ending); }
      }
    }
  }

  class TxExecutorLog {
    const thid: nat
    const logBufferPool: LogBufferPool
    const ctidw: array<TidWord>            // CTIDW
    const thLocalEpoch: array<nat>         // ThLocalEpoch

    constructor (pool: LogBufferPool, ctidw: array<TidWord>, thLocalEpoch: array<nat>)
      ensures thid == pool.thid && logBufferPool == pool && this.ctidw == ctidw && this.thLocalEpoch == thLocalEpoch
    {
      thid, logBufferPool, this.ctidw, this.thLocalEpoch := pool.thid, pool, ctidw, thLocalEpoch;
    }

    ghost predicate Shows(s: D.State)
      reads this, logBufferPool, logBufferPool.queue, ctidw
    {
      && logBufferPool.thid == thid < ctidw.Length && thid < thLocalEpoch.Length
      && logBufferPool.Shows(s) && s.ws[thid].ctidw == ctidw[thid]
    }

    /** wal hands the records of the transaction to the pipeline once, in one piece, and stores CTIDW
        after them if their epoch is a new one. */
    method Wal(ghost s: D.State, ctid: TidWord, writeSet: seq<nat>, writeVal: C.Value)
      returns (done: bool, ghost s': D.State)
      requires Shows(s) && D.Enabled(s, D.WalBegin(thid, ctid, writeSet, writeVal))
      requires logBufferPool.current.Some? && !logBufferPool.quit
      modifies logBufferPool`current, logBufferPool`pool, logBufferPool.queue`queue, ctidw
      ensures Ran(s, WorkerThread(thid), s') && Shows(s')
      ensures done ==> s'.ws[thid].pc.WalDone? && s'.ws[thid].ctidw.epoch == ctid.epoch
      ensures done ==> s'.ws[thid].hist == s.ws[thid].hist + (if writeSet == [] then []
                else [D.Records(ctid, writeSet, writeVal)])
      ensures !done ==> s'.ws[thid].pc.WalAppend? && logBufferPool.current == D.None && logBufferPool.pool == []
      ensures forall i :: 0 <= i < ctidw.Length && i != thid ==> ctidw[i] == old(ctidw[i])
    {
      var oldTid := ctidw[thid];
      var newEpochBegins := oldTid.epoch != ctid.epoch;
      RanNone(s, WorkerThread(thid));
      s' := Extend(s, WorkerThread(thid), s, D.WalBegin(thid, ctid, writeSet, writeVal));
      done, s' := logBufferPool.Push(s, s', ctid, writeSet, writeVal, newEpochBegins);
      if !done { return; }
      if newEpochBegins { ctidw[thid] := ctid; }
      s' := Extend(s, WorkerThread(thid), s', D.WorkerStep(thid));
    }

    /** epochWork after leaderWork: CTIDW is loaded first, stored last. */
    method EpochWork(ghost s: D.State, globalEpoch: nat) returns (ghost s': D.State)
      requires Shows(s) && D.Enabled(s, D.EwLoad(thid)) && globalEpoch == s.ge
      modifies thLocalEpoch, ctidw
      ensures Ran(s, WorkerThread(thid), s') && Shows(s') && s'.ws[thid].pc.Free?
      ensures thLocalEpoch[thid] == globalEpoch
      ensures ctidw[thid].epoch == old(ctidw[thid]).epoch || ctidw[thid].epoch == globalEpoch % EPOCH_LIMIT
      ensures forall i :: 0 <= i < ctidw.Length && i != thid ==> ctidw[i] == old(ctidw[i])
      ensures forall i :: 0 <= i < thLocalEpoch.Length && i != thid ==> thLocalEpoch[i] == old(thLocalEpoch[i])
    {
      var oldTid := ctidw[thid];
      thLocalEpoch[thid] := globalEpoch;
      var newEpoch := thLocalEpoch[thid];
      if oldTid.epoch != newEpoch {
        ctidw[thid] := TidWord(newEpoch % EPOCH_LIMIT, 0, false, true, false);
      }
      RanNone(s, WorkerThread(thid));
      s' := Extend(s, WorkerThread(thid), s, D.EwLoad(thid));
      s' := Extend(s, WorkerThread(thid), s', D.EwStore(thid));
      s' := Extend(s, WorkerThread(thid), s', D.WorkerStep(thid));
    }
  }
}
