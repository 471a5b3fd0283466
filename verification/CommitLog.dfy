/** Facts about the log of transactions in the order of their serial points: who wrote a key last,
    which versions a key has had, and how the log may grow. */
module CommitLog {
  import opened TidWords
  import opened CommitModel

  predicate Live(e: Entry) {
    !e.st.Aborted?
  }

  /** The last transaction before position i that writes x and has not aborted; -1 for the initial load. */
  function LastWriter(log: seq<Entry>, i: nat, x: nat): (r: int)
    requires i <= |log|
    ensures -1 <= r < i
    ensures r >= 0 ==> Live(log[r]) && x in log[r].wset
  {
    if i == 0 then -1
    else if Live(log[i - 1]) && x in log[i - 1].wset then i - 1
    else LastWriter(log, i - 1, x)
  }

  /** `ver` names a value that x has had: the initial one, or that of a committed writer of x. */
  predicate IsVersion(log: seq<Entry>, x: nat, ver: int) {
    ver == -1 || (0 <= ver < |log| && log[ver].st.Committed? && x in log[ver].wset)
  }

  function VersionWord(log: seq<Entry>, ver: int): TidWord {
    if 0 <= ver < |log| && log[ver].st.Committed? then log[ver].st.ctid else INIT_WORD
  }

  function VersionVal(init: seq<Value>, log: seq<Entry>, x: nat, ver: int): Value
    requires x < |init|
  {
    if 0 <= ver < |log| then log[ver].val else init[x]
  }

  lemma {:induction false} LastWriterIsLast(log: seq<Entry>, i: nat, x: nat, j: nat)
    requires j < i <= |log| && Live(log[j]) && x in log[j].wset
    ensures j <= LastWriter(log, i, x)
  {
    if j < i - 1 { LastWriterIsLast(log, i - 1, x, j); }
  }

  /** Nobody live wrote x between the last writer before i and i. */
  lemma {:induction false} LastWriterBetween(log: seq<Entry>, i: nat, m: nat, x: nat)
    requires m <= i <= |log| && LastWriter(log, i, x) < m
    ensures LastWriter(log, m, x) == LastWriter(log, i, x)
  {
    if m < i { LastWriterBetween(log, i - 1, m, x); }
  }

  lemma {:induction false} LastWriterPrefix(log: seq<Entry>, log': seq<Entry>, i: nat, x: nat)
    requires i <= |log| && i <= |log'|
    requires forall j :: 0 <= j < i ==> log'[j].wset == log[j].wset && (Live(log'[j]) <==> Live(log[j]))
    ensures LastWriter(log', i, x) == LastWriter(log, i, x)
  {
    if i > 0 { LastWriterPrefix(log, log', i - 1, x); }
  }

  /** Aborting the entry at p only matters to those whose last writer it was. */
  lemma {:induction false} LastWriterAbort(log: seq<Entry>, p: nat, i: nat, x: nat)
    requires p < |log| && i <= |log|
    ensures var log' := log[p := log[p].(st := Aborted)];
            LastWriter(log', i, x) == if LastWriter(log, i, x) == p then LastWriter(log, p, x)
                else LastWriter(log, i, x)
  {
    var log' := log[p := log[p].(st := Aborted)];
    if i > 0 {
      if i - 1 == p {
        LastWriterPrefix(log, log', p, x);
      } else {
        LastWriterAbort(log, p, i - 1, x);
      }
    }
  }

  // ---- What every log of a run satisfies ----------------------------------------------------

  /** A read that a serial execution in log order would also make. */
  ghost predicate ReadSerial(init: seq<Value>, log: seq<Entry>, j: nat, r: ReadElement)
    requires j <= |log|
  {
    && r.key < |init|
    && r.ver == LastWriter(log, j, r.key)
    && IsVersion(log, r.key, r.ver)
    && r.val == VersionVal(init, log, r.key, r.ver)
    && SameVersion(r.word, VersionWord(log, r.ver))
  }

  /** A live writer overwrites a committed version, and commits with a later word. */
  ghost predicate WriteSerial(log: seq<Entry>, j: nat, x: nat)
    requires j < |log|
  {
    var p := LastWriter(log, j, x);
    && IsVersion(log, x, p)
    && (log[j].st.Committed? ==> Before(VersionWord(log, p), log[j].st.ctid))
  }

  ghost predicate EntryOk(init: seq<Value>, log: seq<Entry>, j: nat)
    requires j < |log|
  {
    var e := log[j];
    && e.epoch >= 1
    && |e.val| == VAL_SIZE
    && (forall i :: 0 <= i < j ==> log[i].epoch <= e.epoch)
    && (forall x :: x in e.wset ==> x < |init|)
    && (Live(e) ==> forall x :: x in e.wset ==> WriteSerial(log, j, x))
    && (e.st.Committed? ==>
          && e.st.ctid.Valid() && e.st.ctid.epoch == e.epoch && e.st.ctid.latest && !e.st.ctid.lock
          && e.st.ctid.tid <= Commits(log, e.epoch)
          && (forall i :: 0 <= i < |e.rset| ==>
                ReadSerial(init, log, j, e.rset[i]) && Before(e.rset[i].word, e.st.ctid)))
  }

  ghost predicate LogOk(init: seq<Value>, log: seq<Entry>) {
    forall j :: 0 <= j < |log| ==> EntryOk(init, log, j)
  }

  /** The versions of a key carry strictly increasing words, in log order. */
  lemma {:induction false} VersionsIncrease(init: seq<Value>, log: seq<Entry>, x: nat, i: int, j: int)
    requires LogOk(init, log) && IsVersion(log, x, i) && IsVersion(log, x, j) && i < j
    ensures Before(VersionWord(log, i), VersionWord(log, j))
    decreases j
  {
    assert EntryOk(init, log, j) && WriteSerial(log, j, x);
    var p := LastWriter(log, j, x);
    if i >= 0 { LastWriterIsLast(log, j, x, i); }
    if i < p { VersionsIncrease(init, log, x, i, p); }
  }

  lemma SameVersionSame(init: seq<Value>, log: seq<Entry>, x: nat, i: int, j: int)
    requires LogOk(init, log) && IsVersion(log, x, i) && IsVersion(log, x, j)
    requires SameVersion(VersionWord(log, i), VersionWord(log, j))
    ensures i == j
  {
    if i < j { VersionsIncrease(init, log, x, i, j); }
    if j < i { VersionsIncrease(init, log, x, j, i); }
  }

  lemma VersionWordOk(init: seq<Value>, log: seq<Entry>, ver: int)
    requires LogOk(init, log)
    ensures var v := VersionWord(log, ver);
            v.Valid() && v.latest && !v.lock && v.epoch >= 1 && v.tid <= Commits(log, v.epoch)
  {
    if 0 <= ver < |log| { assert EntryOk(init, log, ver); }
  }

  // ---- How the log evolves ------------------------------------------------------------------

  /** Worker w may settle its own pending entries and append new ones; nothing else changes. */
  ghost predicate LogEvolves(log: seq<Entry>, log': seq<Entry>, w: nat) {
    && |log| <= |log'|
    && (forall j :: 0 <= j < |log| ==> Settles(log[j], log'[j], w))
    && (forall j :: |log| <= j < |log'| ==> log'[j].worker == w && log'[j].st.Pending?)
  }

  ghost predicate Settles(e: Entry, e': Entry, w: nat) {
    e' == e || (e.st.Pending? && e.worker == w && e' == e.(st := e'.st))
  }

  lemma LogKeepsVersions(init: seq<Value>, log: seq<Entry>, log': seq<Entry>, w: nat, x: nat, ver: int)
    requires LogEvolves(log, log', w) && x < |init| && IsVersion(log, x, ver)
    ensures IsVersion(log', x, ver) && VersionWord(log', ver) == VersionWord(log, ver)
    ensures VersionVal(init, log', x, ver) == VersionVal(init, log, x, ver)
  {
    if ver >= 0 { assert Settles(log[ver], log'[ver], w); }
  }

  /** A committed last writer stays the last writer. */
  lemma {:induction false} LogKeepsLastWriter(log: seq<Entry>, log': seq<Entry>, w: nat, i: nat, x: nat)
    requires LogEvolves(log, log', w) && i <= |log| && IsVersion(log, x, LastWriter(log, i, x))
    ensures LastWriter(log', i, x) == LastWriter(log, i, x)
  {
    if i > 0 {
      assert Settles(log[i - 1], log'[i - 1], w);
      if LastWriter(log, i, x) != i - 1 { LogKeepsLastWriter(log, log', w, i - 1, x); }
    }
  }

  lemma {:induction false} CommitsMonotone(log: seq<Entry>, log': seq<Entry>, w: nat, e: nat)
    requires LogEvolves(log, log', w)
    ensures Commits(log, e) <= Commits(log', e)
    decreases |log'|
  {
    if |log'| > |log| {
      var l' := log'[..|log'| - 1];
      assert LogEvolves(log, l', w);
      CommitsMonotone(log, l', w, e);
    } else if |log| > 0 {
      var n := |log| - 1;
      assert LogEvolves(log[..n], log'[..n], w);
      CommitsMonotone(log[..n], log'[..n], w, e);
      assert Settles(log[n], log'[n], w);
    }
  }

  lemma {:induction false} CommitsSettle(log: seq<Entry>, p: nat, st: Status, e: nat)
    requires p < |log| && log[p].st.Pending?
    ensures Commits(log[p := log[p].(st := st)], e) ==
            Commits(log, e) + if st.Committed? && log[p].epoch == e then 1 else 0
    decreases |log|
  {
    var n := |log| - 1;
    var log' := log[p := log[p].(st := st)];
    if p < n {
      assert log'[..n] == log[..n][p := log[p].(st := st)];
      CommitsSettle(log[..n], p, st, e);
    } else {
      assert log'[..n] == log[..n];
    }
  }

  lemma CommitsAppend(log: seq<Entry>, entry: Entry, e: nat)
    requires entry.st.Pending?
    ensures Commits(log + [entry], e) == Commits(log, e)
  {
    assert (log + [entry])[..|log|] == log;
  }
}
