/** The windowed search for a replaced deposit (src/instant_deposits.rs): each
    pass reads at most 21 blocks and stores where the next pass starts. */
module Rescan {
  import opened Basics
  import opened ExitTransfer

  datatype Output = Output(script: nat, value: u64, n: nat)
  datatype Tx = Tx(txid: nat, outputs: seq<Output>)
  type Block = seq<Tx>

  const WINDOW: nat := 20
  const REORG_MARGIN: nat := 6

  function Min(a: nat, b: nat): nat {
    if a <= b then a else b
  }

  function Below6(height: nat): nat {
    if height >= REORG_MARGIN then height - REORG_MARGIN else 0
  }

  function WindowStart(cursor: nat, tip: nat): nat {
    Min(cursor, tip)
  }

  function WindowEnd(cursor: nat, tip: nat): nat {
    Min(WindowStart(cursor, tip) + WINDOW, tip)
  }

  /** Where the next pass starts after one that found nothing. */
  function NextCursor(cursor: nat, tip: nat): nat {
    if WindowEnd(cursor, tip) == tip then Below6(tip) else WindowEnd(cursor, tip) + 1
  }

  /** The replacement pays the same script and amount and is still unspent. */
  predicate IsReplacement(tx: Tx, o: Output, script: nat, value: u64, utxos: set<Outpoint>) {
    o.script == script && o.value == value && Outpoint(tx.txid, o.n) in utxos
  }

  ghost predicate TxHas(tx: Tx, script: nat, value: u64, utxos: set<Outpoint>, p: Outpoint) {
    exists j :: 0 <= j < |tx.outputs|
      && p == Outpoint(tx.txid, tx.outputs[j].n) && IsReplacement(tx, tx.outputs[j], script, value, utxos)
  }

  ghost predicate BlockHas(block: Block, script: nat, value: u64, utxos: set<Outpoint>, p: Outpoint) {
    exists i :: 0 <= i < |block| && TxHas(block[i], script, value, utxos, p)
  }

  ghost predicate HeightHas(chain: seq<Block>, h: nat, script: nat, value: u64, utxos: set<Outpoint>) {
    h < |chain| && exists p :: BlockHas(chain[h], script, value, utxos, p)
  }

  /** Read every output of every transaction of the window, in order. */
  method ScanWindow(chain: seq<Block>, start: nat, end: nat, script: nat, value: u64, utxos: set<Outpoint>)
    returns (found: Option<Outpoint>, ghost at: nat)
    requires start <= end < |chain|
    ensures found.Some? ==>
      start <= at <= end && found.value in utxos && BlockHas(chain[at], script, value, utxos, found.value)
    ensures found.Some? ==> forall h :: start <= h < at ==> !HeightHas(chain, h, script, value, utxos)
    ensures found.None? ==> forall h :: start <= h <= end ==> !HeightHas(chain, h, script, value, utxos)
  {
    for height := start to end + 1
      invariant forall h :: start <= h < height ==> !HeightHas(chain, h, script, value, utxos)
    {
      var block := chain[height];
      for i := 0 to |block|
        invariant forall x, p :: 0 <= x < i ==> !TxHas(block[x], script, value, utxos, p)
      {
        var tx := block[i];
        for j := 0 to |tx.outputs|
          invariant forall y :: 0 <= y < j ==> !IsReplacement(tx, tx.outputs[y], script, value, utxos)
        {
          var output := tx.outputs[j];
          if output.script == script && output.value == value {
            var point := Outpoint(tx.txid, output.n);
            if point in utxos {
              assert TxHas(block[i], script, value, utxos, point);
              return Some(point), height;
            }
          }
        }
      }
    }
    found, at := None, end;
  }

  // ---- No block is skipped ----

  /** A pass keeps the promise "every height from `first` up to the stored
      cursor has been read", however the tip moved since the last pass. */
  lemma PassSkipsNothing(first: nat, cursor: nat, tip: nat, h: nat)
    requires first <= h < NextCursor(cursor, tip)
    ensures h < cursor || WindowStart(cursor, tip) <= h <= WindowEnd(cursor, tip)
  {
  }

  /** The cursor after one fruitless pass at each of these tips. */
  function CursorThrough(cursor: nat, tips: seq<nat>): nat {
    if tips == [] then cursor else NextCursor(CursorThrough(cursor, tips[..|tips| - 1]), tips[|tips| - 1])
  }

  /** However the tip moves between passes: every height from the first cursor up
      to the last one lies in the window of some pass. */
  lemma {:induction false} NoHeightIsSkipped(first: nat, tips: seq<nat>, h: nat) returns (k: nat)
    requires first <= h < CursorThrough(first, tips)
    ensures k < |tips|
    ensures WindowStart(CursorThrough(first, tips[..k]), tips[k]) <= h
    ensures h <= WindowEnd(CursorThrough(first, tips[..k]), tips[k])
    decreases |tips|
  {
    var front, tip := tips[..|tips| - 1], tips[|tips| - 1];
    if h < CursorThrough(first, front) {
      k := NoHeightIsSkipped(first, front, h);
      assert front[..k] == tips[..k];
    } else {
      k := |tips| - 1;
      PassSkipsNothing(first, CursorThrough(first, front), tip, h);
    }
  }

  /** A pass that reached the tip is followed by one that reads the last seven
      heights again, and up to fourteen new ones, wherever the tip is by then: a
      reorganisation that shallow hides nothing. */
  lemma ReorgIsReread(cursor: nat, tip: nat, later: nat, h: nat)
    requires WindowEnd(cursor, tip) == tip && tip <= h + 6 && h <= tip + 14 && h <= later
    ensures WindowStart(NextCursor(cursor, tip), later) <= h <= WindowEnd(NextCursor(cursor, tip), later)
  {
  }

  /** The cursor after `n` fruitless passes at a fixed tip. */
  function CursorAfter(n: nat, cursor: nat, tip: nat): nat {
    if n == 0 then cursor else CursorAfter(n - 1, NextCursor(cursor, tip), tip)
  }

  /** At a fixed tip, every pass either reads the tip or moves the cursor
      strictly closer to it, by a full window. */
  lemma PassAdvances(cursor: nat, tip: nat)
    ensures WindowEnd(cursor, tip) == tip || NextCursor(cursor, tip) == cursor + 21 <= tip
  {
  }

  /** So a replacement that stays unspent at a fixed tip is read by one of the
      next (tip - cursor) / 21 + 1 passes. */
  lemma {:induction false} EveryHeightIsReached(cursor: nat, tip: nat, h: nat) returns (n: nat)
    requires cursor <= h <= tip
    ensures n <= (tip - cursor) / 21
    ensures WindowStart(CursorAfter(n, cursor, tip), tip) <= h <= WindowEnd(CursorAfter(n, cursor, tip), tip)
    decreases tip - cursor
  {
    if h <= WindowEnd(cursor, tip) {
      n := 0;
    } else {
      var next := NextCursor(cursor, tip);
      PassAdvances(cursor, tip);
      var m := EveryHeightIsReached(next, tip, h);
      n := m + 1;
    }
  }
}
