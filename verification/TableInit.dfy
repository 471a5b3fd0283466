/** Loading the table (main.cpp:104-128): threads fill equal parts of it. */
module TableInits {
  import opened TxExecutors
  import C = CommitModel

  /** What partTableInit sets; TID and absent keep what the memory held. */
  function Loaded(c: Cell): Cell
    requires |c.val| == C.VAL_SIZE
  {
    Cell(c.word.(epoch := 1, latest := true, lock := false), c.val[0 := 'a'][1 := '\0'])
  }

  /** Memory that held zeros becomes the initial word of the protocol. */
  lemma LoadedFromZero(c: Cell)
    requires |c.val| == C.VAL_SIZE && c.word == C.ZERO_WORD
    ensures Loaded(c).word == C.INIT_WORD && |Loaded(c).val| == C.VAL_SIZE
  {
  }

  method PartTableInit(table: array<Cell>, start: nat, end: int)
    requires end < table.Length && forall i :: 0 <= i < table.Length ==> |table[i].val| == C.VAL_SIZE
    modifies table
    ensures forall i :: 0 <= i < table.Length ==> |table[i].val| == C.VAL_SIZE
    ensures forall i :: 0 <= i < table.Length ==>
              table[i] == if start <= i <= end then Loaded(old(table[i])) else old(table[i])
  {
    var i := start;
    while i <= end
      invariant start <= i && (i <= end + 1 || i == start)
      invariant forall k :: 0 <= k < table.Length ==>
                  table[k] == if start <= k < i then Loaded(old(table[k])) else old(table[k])
    {
      var t := table[i];
      t := t.(word := t.word.(epoch := 1));
      t := t.(word := t.word.(latest := true));
      t := t.(word := t.word.(lock := false));
      t := t.(val := t.val[0 := 'a']);
      t := t.(val := t.val[1 := '\0']);
      table[i] := t;
      i := i + 1;
    }
  }

  lemma Exact(n: nat, parts: nat)
    requires parts > 0 && n % parts == 0
    ensures parts * (n / parts) == n
  {
  }

  lemma Times(x: nat, y: nat, m: nat)
    requires x <= y
    ensures x * m <= y * m
  {
  }

  lemma PartEnds(parts: nat, n: nat, i: nat)
    requires parts > 0 && n % parts == 0 && i < parts
    ensures var size := n / parts; i * size <= (i + 1) * size <= n && parts * size == n
  {
    Exact(n, parts);
    Times(i, i + 1, n / parts);
    Times(i + 1, parts, n / parts);
  }

  /** Every tuple is loaded, once, whatever number of threads divides the table. */
  method MakeDb(table: array<Cell>, hardwareConcurrency: nat)
    requires hardwareConcurrency > 0 && forall i :: 0 <= i < table.Length ==> |table[i].val| == C.VAL_SIZE
    modifies table
    ensures forall i :: 0 <= i < table.Length ==> table[i] == Loaded(old(table[i]))
  {
    var maxthread := hardwareConcurrency;
    while maxthread > 0
      invariant 0 < maxthread <= hardwareConcurrency
      invariant forall i :: 0 <= i < table.Length ==> table[i] == old(table[i])
      decreases maxthread
    {
      if table.Length % maxthread == 0 { break; }
      maxthread := maxthread - 1;
    }
    var size := table.Length / maxthread;
    var i := 0;
    PartEnds(maxthread, table.Length, 0);
    while i < maxthread
      invariant 0 <= i <= maxthread
      invariant forall k :: 0 <= k < table.Length ==> |table[k].val| == C.VAL_SIZE
      invariant forall k :: 0 <= k < table.Length ==>
                  table[k] == if k < i * size then Loaded(old(table[k])) else old(table[k])
    {
      PartEnds(maxthread, table.Length, i);
      PartTableInit(table, i * size, (i + 1) * size - 1);
      i := i + 1;
    }
  }
}
