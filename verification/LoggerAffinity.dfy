/** How workers are shared out among loggers (logger.cpp:8-36, main.cpp:180-187). */
module LoggerAffinities {
  import D = LogModel

  const UINT_LIMIT := 0x1_0000_0000

  /** LoggerNode */
  datatype Node = Node(loggerCpu: int, workerCpu: seq<nat>)

  // ---- Blocks of threads --------------------------------------------------------------------

  function Ceiling(a: nat, m: nat): nat
    requires m > 0
  {
    (a + m - 1) / m
  }

  lemma Times(x: nat, y: nat, m: nat)
    requires x <= y
    ensures x * m <= y * m
  {
  }

  lemma TimesNext(x: nat, y: nat, m: nat)
    requires x < y
    ensures x * m + m <= y * m
  {
    Times(x + 1, y, m);
    assert (x + 1) * m == x * m + m;
  }

  lemma Distributes(x: nat, y: nat, m: nat)
    ensures (x + y) * m == x * m + y * m
  {
  }

  lemma CeilingBounds(a: nat, m: nat)
    requires m > 0
    ensures var c := Ceiling(a, m); a <= c * m < a + m
  {
    var c := Ceiling(a, m);
    assert c * m <= a + m - 1 < c * m + m;
  }

  lemma CeilingIs(a: nat, m: nat, i: nat)
    requires m > 0
    ensures Ceiling(a, m) <= i <==> a <= i * m
  {
    var c := Ceiling(a, m);
    CeilingBounds(a, m);
    if c <= i {
      Times(c, i, m);
    } else {
      TimesNext(i, c, m);
    }
  }

  /** Adding n to the numerator raises the ceiling by n / m or one more. */
  lemma CeilingStep(a: nat, n: nat, m: nat)
    requires m > 0
    ensures Ceiling(a, m) + n / m <= Ceiling(a + n, m) <= Ceiling(a, m) + n / m + 1
  {
    var c, d, q := Ceiling(a, m), Ceiling(a + n, m), n / m;
    CeilingBounds(a, m);
    CeilingBounds(a + n, m);
    assert q * m <= n < q * m + m;
    Distributes(c, q, m);
    TimesNext(c + q, c + q + 1, m);
    Distributes(c + q, 1, m);
    if d < c + q { TimesNext(d, c + q, m); }
    if d > c + q + 1 { TimesNext(c + q + 1, d, m); }
  }

  /** The first thread of node l when n threads are shared out among m nodes. */
  function Start(n: nat, m: nat, l: nat): nat
    requires m > 0
  {
    Ceiling(l * n, m)
  }

  /** `i * logger_num / n`: thread i goes to the node whose block it lies in. */
  lemma NodeOf(n: nat, m: nat, i: nat, l: nat)
    requires n > 0 && m > 0
    ensures i * m / n == l <==> Start(n, m, l) <= i < Start(n, m, l + 1)
  {
    CeilingIs(l * n, m, i);
    CeilingIs((l + 1) * n, m, i);
    assert (l + 1) * n == l * n + n;
    QuotientIs(i * m, n, l);
  }

  lemma QuotientIs(a: nat, n: nat, l: nat)
    requires n > 0
    ensures a / n == l <==> l * n <= a < l * n + n
  {
    var q := a / n;
    assert q * n <= a < q * n + n;
    if q < l { TimesNext(q, l, n); }
    if l < q { TimesNext(l, q, n); }
  }

  lemma QuotientAtLeast(a: nat, m: nat, k: nat)
    requires m > 0 && k * m <= a
    ensures a / m >= k
  {
    var q := a / m;
    assert q * m <= a < q * m + m;
    if q < k { TimesNext(q, k, m); }
  }

  /** Blocks cover 0 to n - 1 and differ in size by at most one. */
  lemma BlockSizes(n: nat, m: nat, l: nat)
    requires m > 0 && l < m
    ensures Start(n, m, 0) == 0 && Start(n, m, m) == n
    ensures n / m <= Start(n, m, l + 1) - Start(n, m, l) <= n / m + 1
  {
    CeilingIs(0 * n, m, 0);
    EndsAt(n, m);
    assert (l + 1) * n == l * n + n;
    CeilingStep(l * n, n, m);
  }

  lemma EndsAt(n: nat, m: nat)
    requires m > 0
    ensures Start(n, m, m) == n
  {
    CeilingIs(m * n, m, n);
    if n > 0 {
      CeilingIs(m * n, m, n - 1);
      assert (n - 1) * m == n * m - m;
    }
  }

  /** No block is empty exactly if there are at least as many threads as nodes. */
  lemma NoBlockEmptyIff(n: nat, m: nat)
    requires m > 0
    ensures (forall l :: 0 <= l < m ==> Start(n, m, l) < Start(n, m, l + 1)) <==> n >= m
  {
    if n >= m {
      QuotientAtLeast(n, m, 1);
      forall l | 0 <= l < m ensures Start(n, m, l) < Start(n, m, l + 1) { BlockSizes(n, m, l); }
    } else if forall l :: 0 <= l < m ==> Start(n, m, l) < Start(n, m, l + 1) {
      StartsRise(n, m, m);
      BlockSizes(n, m, 0);
    }
  }

  lemma {:induction false} StartsRise(n: nat, m: nat, k: nat)
    requires 0 < m && k <= m && forall l :: 0 <= l < m ==> Start(n, m, l) < Start(n, m, l + 1)
    ensures Start(n, m, k) >= k
  {
    if k > 0 { StartsRise(n, m, k - 1); }
  }

  function Range(lo: nat, hi: nat): (s: seq<nat>)
    ensures |s| == if lo <= hi then hi - lo else 0
  {
    if lo >= hi then [] else Range(lo, hi - 1) + [hi - 1]
  }

  lemma {:induction false} RangeAt(lo: nat, hi: nat, i: nat)
    requires lo + i < hi
    ensures Range(lo, hi)[i] == lo + i
  {
    if lo + i < hi - 1 { RangeAt(lo, hi - 1, i); }
  }

  /** Node l once the first i threads are shared out. */
  function Filled(n: nat, m: nat, i: nat, l: nat): seq<nat>
    requires m > 0
  {
    Range(Start(n, m, l), if i <= Start(n, m, l + 1) then i else Start(n, m, l + 1))
  }

  /** `i * logger_num / n` in 32-bit arithmetic. */
  function Index(n: nat, m: nat, i: nat): nat
    requires n > 0
  {
    i * m % UINT_LIMIT / n
  }

  /** Handing out thread i adds it to one node. */
  lemma FilledNext(n: nat, m: nat, i: nat)
    requires m > 0 && i < n && (n - 1) * m < UINT_LIMIT
    ensures Index(n, m, i) < m
    ensures forall l :: 0 <= l < m ==>
              Filled(n, m, i + 1, l) == if l == Index(n, m, i) then Filled(n, m, i, l) + [i] else Filled(n, m, i, l)
  {
    Times(i, n - 1, m);
    assert Index(n, m, i) == i * m / n;
    QuotientBelow(i, m, n);
    forall l | 0 <= l < m
      ensures Filled(n, m, i + 1, l) == if l == Index(n, m, i) then Filled(n, m, i, l) + [i] else Filled(n, m, i, l)
    {
      NodeOf(n, m, i, l);
      BlockSizes(n, m, l);
    }
  }

  lemma QuotientBelow(i: nat, m: nat, n: nat)
    requires i < n && m > 0
    ensures i * m / n < m
  {
    var q := i * m / n;
    QuotientIs(i * m, n, q);
    TimesNext(i, n, m);
    if q >= m { Times(m, q, n); }
  }

  lemma AllFilled(n: nat, m: nat)
    requires m > 0
    ensures forall l :: 0 <= l < m ==> Filled(n, m, n, l) == Range(Start(n, m, l), Start(n, m, l + 1))
  {
    forall l | 0 <= l < m ensures Filled(n, m, n, l) == Range(Start(n, m, l), Start(n, m, l + 1)) {
      Times(l + 1, m, n);
      CeilingIs((l + 1) * n, m, n);
    }
  }

  // ---- init ---------------------------------------------------------------------------------

  class LoggerAffinity {
    var nodes: seq<Node>
    var workerNum: nat
    var loggerNum: nat

    constructor ()
      ensures nodes == [] && workerNum == 0 && loggerNum == 0
    {
      nodes, workerNum, loggerNum := [], 0, 0;
    }

    /** Lines 21-23 and 28-30: thread i goes to node i * logger_num / n, the product taken in 32 bits. */
    method Share(n: nat)
      requires |nodes| == loggerNum > 0 && n > 0 && (n - 1) * loggerNum < UINT_LIMIT
      requires forall l :: 0 <= l < loggerNum ==> nodes[l].workerCpu == []
      modifies this`nodes
      ensures |nodes| == loggerNum
      ensures forall l :: 0 <= l < loggerNum ==>
                nodes[l].workerCpu == Range(Start(n, loggerNum, l), Start(n, loggerNum, l + 1))
    {
      var i := 0;
      while i < n
        invariant 0 <= i <= n && |nodes| == loggerNum
        invariant forall l :: 0 <= l < loggerNum ==> nodes[l].workerCpu == Filled(n, loggerNum, i, l)
      {
        FilledNext(n, loggerNum, i);
        var k := Index(n, loggerNum, i);
        nodes := nodes[k := nodes[k].(workerCpu := nodes[k].workerCpu + [i])];
        i := i + 1;
      }
      AllFilled(n, loggerNum);
    }

    /** Each node gets a contiguous block of threads. Where the CPUs suffice the last thread of a block
        becomes the logger; otherwise the logger shares the CPU of the last worker. No node is left
        without a worker. */
    method Init(workerNum: nat, loggerNum: nat, numCpus: nat)
      requires nodes == [] && workerNum >= loggerNum > 0 && workerNum + loggerNum < UINT_LIMIT
      requires (Threads(workerNum, loggerNum, numCpus) - 1) * loggerNum < UINT_LIMIT
      modifies this
      ensures this.workerNum == workerNum && this.loggerNum == loggerNum && |nodes| == loggerNum
      ensures forall l :: 0 <= l < loggerNum ==> Shared(nodes[l], workerNum, loggerNum, numCpus, l)
      ensures forall l :: 0 <= l < loggerNum ==> nodes[l].workerCpu != []
    {
      this.workerNum, this.loggerNum := workerNum, loggerNum;
      var i := 0;
      while i < loggerNum
        modifies this`nodes
        invariant 0 <= i <= loggerNum && |nodes| == i && forall l :: 0 <= l < i ==> nodes[l] == Node(0, [])
      {
        nodes := nodes + [Node(0, [])];
        i := i + 1;
      }
      var threadNum := loggerNum + workerNum;
      Share(if threadNum > numCpus then workerNum else threadNum);
      if threadNum > numCpus {
        i := 0;
        while i < loggerNum
          modifies this`nodes
          invariant 0 <= i <= loggerNum && |nodes| == loggerNum
          invariant forall l :: 0 <= l < i ==>
                      Shared(nodes[l], workerNum, loggerNum, numCpus, l) && nodes[l].workerCpu != []
          invariant forall l :: i <= l < loggerNum ==>
                      nodes[l].workerCpu == Range(Start(workerNum, loggerNum, l), Start(workerNum, loggerNum, l + 1))
        {
          EnoughEach(workerNum, loggerNum, i);
          var back := nodes[i].workerCpu[|nodes[i].workerCpu| - 1];
          nodes := nodes[i := nodes[i].(loggerCpu := back)];
          i := i + 1;
        }
      } else {
        i := 0;
        while i < loggerNum
          modifies this`nodes
          invariant 0 <= i <= loggerNum && |nodes| == loggerNum
          invariant forall l :: 0 <= l < i ==>
                      Shared(nodes[l], workerNum, loggerNum, numCpus, l) && nodes[l].workerCpu != []
          invariant forall l :: i <= l < loggerNum ==>
                      nodes[l].workerCpu == Range(Start(threadNum, loggerNum, l), Start(threadNum, loggerNum, l + 1))
        {
          EnoughEach(workerNum, loggerNum, i);
          var cpus := nodes[i].workerCpu;
          var back := cpus[|cpus| - 1];
          nodes := nodes[i := Node(back, cpus[..|cpus| - 1])];
          i := i + 1;
        }
      }
    }
  }

  /** The threads that init shares out: loggers count where the CPUs suffice. */
  function Threads(workerNum: nat, loggerNum: nat, numCpus: nat): nat {
    if workerNum + loggerNum > numCpus then workerNum else workerNum + loggerNum
  }

  /** Node l has the block of threads l, less the one that became its logger. */
  predicate Shared(node: Node, workerNum: nat, loggerNum: nat, numCpus: nat, l: nat)
    requires loggerNum > 0
  {
    var n := Threads(workerNum, loggerNum, numCpus);
    var end := Start(n, loggerNum, l + 1);
    && end > 0 && node.loggerCpu == end - 1
    && node.workerCpu == Range(Start(n, loggerNum, l), if workerNum + loggerNum > numCpus then end else end - 1)
  }

  lemma EnoughEach(workerNum: nat, loggerNum: nat, l: nat)
    requires workerNum >= loggerNum > 0 && l < loggerNum
    ensures Start(workerNum, loggerNum, l) + 1 <= Start(workerNum, loggerNum, l + 1)
    ensures Start(workerNum + loggerNum, loggerNum, l) + 2 <= Start(workerNum + loggerNum, loggerNum, l + 1)
  {
    BlockSizes(workerNum, loggerNum, l);
    BlockSizes(workerNum + loggerNum, loggerNum, l);
    QuotientAtLeast(workerNum, loggerNum, 1);
    QuotientAtLeast(workerNum + loggerNum, loggerNum, 2);
  }

  // ---- The assignment of workers to loggers -------------------------------------------------

  /** How many workers the first l nodes have (the ids main hands out node by node). */
  function Before(nodes: seq<Node>, l: nat): nat
    requires l <= |nodes|
  {
    if l == 0 then 0 else Before(nodes, l - 1) + |nodes[l - 1].workerCpu|
  }

  lemma {:induction false} BeforeIs(nodes: seq<Node>, workerNum: nat, loggerNum: nat, numCpus: nat, l: nat)
    requires workerNum >= loggerNum == |nodes| > 0 && l <= loggerNum
    requires forall k :: 0 <= k < loggerNum ==> Shared(nodes[k], workerNum, loggerNum, numCpus, k)
    ensures var n := Threads(workerNum, loggerNum, numCpus);
            Before(nodes, l) == Start(n, loggerNum, l) - (if workerNum + loggerNum > numCpus then 0 else l)
  {
    var n := Threads(workerNum, loggerNum, numCpus);
    BlockSizes(n, loggerNum, 0);
    if l > 0 {
      BeforeIs(nodes, workerNum, loggerNum, numCpus, l - 1);
      EnoughEach(workerNum, loggerNum, l - 1);
      assert Shared(nodes[l - 1], workerNum, loggerNum, numCpus, l - 1);
    }
  }

  /** Exactly workerNum workers are handed out. */
  lemma AllWorkers(nodes: seq<Node>, workerNum: nat, loggerNum: nat, numCpus: nat)
    requires workerNum >= loggerNum == |nodes| > 0
    requires forall k :: 0 <= k < loggerNum ==> Shared(nodes[k], workerNum, loggerNum, numCpus, k)
    ensures Before(nodes, loggerNum) == workerNum
  {
    BeforeIs(nodes, workerNum, loggerNum, numCpus, loggerNum);
    BlockSizes(Threads(workerNum, loggerNum, numCpus), loggerNum, 0);
  }

  /** main starts the workers node by node: the workers of each logger, and the logger of each worker. */
  function MembersOf(nodes: seq<Node>): (ms: seq<seq<nat>>)
    ensures |ms| == |nodes|
  {
    seq(|nodes|, l requires 0 <= l < |nodes| => Range(Before(nodes, l), Before(nodes, l + 1)))
  }

  function Holder(nodes: seq<Node>, w: nat, l: nat): (r: nat)
    requires l <= |nodes| && w < Before(nodes, l)
    ensures r < l && Before(nodes, r) <= w < Before(nodes, r + 1)
  {
    if w < Before(nodes, l - 1) then Holder(nodes, w, l - 1) else l - 1
  }

  function LoggersOf(nodes: seq<Node>): seq<nat> {
    seq(Before(nodes, |nodes|), w requires 0 <= w < Before(nodes, |nodes|) => Holder(nodes, w, |nodes|))
  }

  lemma {:induction false} BeforeRises(nodes: seq<Node>, k: nat, l: nat)
    requires k <= l <= |nodes|
    ensures Before(nodes, k) <= Before(nodes, l)
  {
    if k < l { BeforeRises(nodes, k, l - 1); }
  }

  /** Different nodes hold different workers. */
  lemma OneHolder(nodes: seq<Node>, w: nat, k: nat, l: nat)
    requires k < |nodes| && l < |nodes|
    requires Before(nodes, k) <= w < Before(nodes, k + 1) && Before(nodes, l) <= w < Before(nodes, l + 1)
    ensures k == l
  {
    if k < l { BeforeRises(nodes, k + 1, l); }
    if l < k { BeforeRises(nodes, l + 1, k); }
  }

  lemma MembersAt(nodes: seq<Node>, l: nat)
    requires l < |nodes|
    ensures MembersOf(nodes)[l] == Range(Before(nodes, l), Before(nodes, l + 1))
  {
  }

  lemma LoggersAt(nodes: seq<Node>, w: nat)
    requires w < Before(nodes, |nodes|)
    ensures LoggersOf(nodes)[w] == Holder(nodes, w, |nodes|)
  {
  }

  lemma Listed(nodes: seq<Node>, w: nat)
    requires w < Before(nodes, |nodes|)
    ensures var l := LoggersOf(nodes)[w]; l < |nodes| && w in MembersOf(nodes)[l]
  {
    LoggersAt(nodes, w);
    HeldBy(nodes, w, Holder(nodes, w, |nodes|));
  }

  lemma HeldBy(nodes: seq<Node>, w: nat, l: nat)
    requires l < |nodes| && Before(nodes, l) <= w < Before(nodes, l + 1)
    ensures w in MembersOf(nodes)[l]
  {
    MembersAt(nodes, l);
    InRange(Before(nodes, l), Before(nodes, l + 1), w);
  }

  lemma InRange(lo: nat, hi: nat, w: nat)
    requires lo <= w < hi
    ensures w in Range(lo, hi)
  {
    RangeAt(lo, hi, w - lo);
    assert Range(lo, hi)[w - lo] == w;
  }

  lemma Member(nodes: seq<Node>, l: nat, i: nat)
    requires l < |nodes| && i < |MembersOf(nodes)[l]|
    ensures var w := MembersOf(nodes)[l][i];
            w == Before(nodes, l) + i && w < Before(nodes, |nodes|) && LoggersOf(nodes)[w] == l
  {
    RangeAt(Before(nodes, l), Before(nodes, l + 1), i);
    BeforeRises(nodes, l + 1, |nodes|);
    var w := MembersOf(nodes)[l][i];
    OneHolder(nodes, w, l, Holder(nodes, w, |nodes|));
  }

  lemma NonEmpty(nodes: seq<Node>, l: nat)
    requires l < |nodes| && nodes[l].workerCpu != []
    ensures |MembersOf(nodes)[l]| > 0
  {
    MembersAt(nodes, l);
  }

  /** What init leaves is a configuration as the pipeline needs it: every worker has one logger, and every
      logger has a worker, without which nobody would ever close its queue. */
  lemma InitGivesConfig(nodes: seq<Node>)
    requires |nodes| > 0 && forall l :: 0 <= l < |nodes| ==> nodes[l].workerCpu != []
    ensures D.ValidConfig(LoggersOf(nodes), MembersOf(nodes))
  {
    ConfigFrom(LoggersOf(nodes), MembersOf(nodes), l => if 0 <= l <= |nodes| then Before(nodes, l) else 0) by {
      forall w | 0 <= w < |LoggersOf(nodes)|
        ensures LoggersOf(nodes)[w] < |nodes| && w in MembersOf(nodes)[LoggersOf(nodes)[w]]
      {
        Listed(nodes, w);
      }
      forall l, i | 0 <= l < |nodes| && 0 <= i < |MembersOf(nodes)[l]|
        ensures MembersOf(nodes)[l][i] == Before(nodes, l) + i < |LoggersOf(nodes)|
        ensures LoggersOf(nodes)[MembersOf(nodes)[l][i]] == l
      {
        Member(nodes, l, i);
      }
      forall l | 0 <= l < |nodes| ensures |MembersOf(nodes)[l]| > 0 { NonEmpty(nodes, l); }
    }
  }

  lemma ConfigFrom(loggerOf: seq<nat>, members: seq<seq<nat>>, start: nat -> nat)
    requires |members| > 0 && forall l :: 0 <= l < |members| ==> |members[l]| > 0
    requires forall w :: 0 <= w < |loggerOf| ==> loggerOf[w] < |members| && w in members[loggerOf[w]]
    requires forall l, i :: 0 <= l < |members| && 0 <= i < |members[l]| ==>
               members[l][i] == start(l) + i < |loggerOf| && loggerOf[members[l][i]] == l
    ensures D.ValidConfig(loggerOf, members)
  {
  }
}
