/** The "shovel squared" reduction (packages/daimo-api/src/server/shovelSquared.ts):
    for a block range it copies block headers into `blocks`, deletes the raw
    transfer rows that touch no known name, and copies what is left into
    `daimo_transfers`. The database tables are sequences of rows held by one
    object; each SQL statement becomes an assignment of the table it changes.
    Addresses are the numbers of their bytes. */
module ShovelSquared {
  import opened Errors
  import opened Common

  /** A row of `eth_transfers` (native transfers found by tracing). */
  datatype EthTransfer = EthTransfer(
    igName: string, srcName: string, chainId: nat, blockNum: nat, blockHash: Hex,
    txIdx: nat, txHash: Hex, traceActionIdx: nat, from: nat, to: nat, value: int)

  /** A row of `erc20_transfers` (token transfer logs). */
  datatype Erc20Transfer = Erc20Transfer(
    igName: string, srcName: string, chainId: nat, blockNum: nat, blockHash: Hex,
    txIdx: nat, txHash: Hex, logIdx: nat, logAddr: nat, f: nat, t: nat, v: int)

  /** A row of `blocks`, unique on (chain_id, block_num). */
  datatype Block = Block(chainId: nat, blockNum: nat, blockHash: Hex, blockTs: int)

  /** A row of `daimo_transfers`, unique on (chain_id, block_num, tx_idx, sort_idx).
      `token` is NULL for native transfers. */
  datatype DaimoTransfer = DaimoTransfer(
    chainId: nat, blockNum: nat, blockHash: Hex, blockTs: int, txIdx: nat, txHash: Hex,
    sortIdx: nat, token: Option<nat>, f: nat, t: nat, amount: int)

  /** The arguments of one `load`: the block range, the chain, the shovel
      source names for traces and events, and the timestamp of block 0. */
  datatype Range = Range(from: nat, to: nat, chainId: nat, trace: string, event: string, blockTsOffset: int)

  /** Every table `load` reads or writes. */
  datatype Tables = Tables(
    blocks: seq<Block>,
    eth: seq<EthTransfer>,
    erc20: seq<Erc20Transfer>,
    names: set<nat>,
    daimo: seq<DaimoTransfer>)

  // ---------------------------------------------------------------------
  // Insert-if-absent: `INSERT ... ON CONFLICT (key) DO NOTHING`

  /** The keys held by a table. */
  function Keys<T, K(==)>(rows: seq<T>, key: T -> K): (r: set<K>)
    ensures forall i :: 0 <= i < |rows| ==> key(rows[i]) in r
    ensures forall k :: k in r ==> exists i :: 0 <= i < |rows| && key(rows[i]) == k
  {
    set i | 0 <= i < |rows| :: key(rows[i])
  }

  /** No two rows share a key (the table's unique constraint). */
  predicate UniqueKeys<T, K(==)>(rows: seq<T>, key: T -> K)
  {
    forall i, j :: 0 <= i < j < |rows| ==> key(rows[i]) != key(rows[j])
  }

  /** The candidates inserted one by one; a candidate whose key is already in
      the table, including one inserted earlier by the same statement, is
      skipped. */
  function InsertIfAbsent<T, K(==)>(rows: seq<T>, cands: seq<T>, key: T -> K): (r: seq<T>)
    ensures |rows| <= |r| <= |rows| + |cands| && r[..|rows|] == rows
    ensures forall i :: |rows| <= i < |r| ==> r[i] in cands && key(r[i]) !in Keys(rows, key)
  {
    if cands == [] then rows
    else
      var prev := InsertIfAbsent(rows, cands[..|cands| - 1], key);
      var c := cands[|cands| - 1];
      if key(c) in Keys(prev, key) then prev else prev + [c]
  }

  /** Afterwards the table holds exactly the old keys and the candidates' keys. */
  lemma {:induction false} InsertIfAbsentKeys<T, K>(rows: seq<T>, cands: seq<T>, key: T -> K)
    ensures Keys(InsertIfAbsent(rows, cands, key), key) == Keys(rows, key) + Keys(cands, key)
  {
    if cands != [] {
      var init := cands[..|cands| - 1];
      InsertIfAbsentKeys(rows, init, key);
      var prev := InsertIfAbsent(rows, init, key);
      var c := cands[|cands| - 1];
      assert cands == init + [c];
      KeysAppend(init, c, key);
      if key(c) !in Keys(prev, key) {
        KeysAppend(prev, c, key);
      }
    }
  }

  lemma KeysAppend<T, K>(rows: seq<T>, x: T, key: T -> K)
    ensures Keys(rows + [x], key) == Keys(rows, key) + {key(x)}
  {
    forall k | k in Keys(rows + [x], key) ensures k in Keys(rows, key) + {key(x)} {
      var i :| 0 <= i < |rows + [x]| && key((rows + [x])[i]) == k;
      if i < |rows| {
        assert (rows + [x])[i] == rows[i];
      }
    }
    forall k | k in Keys(rows, key) ensures k in Keys(rows + [x], key) {
      var i :| 0 <= i < |rows| && key(rows[i]) == k;
      assert (rows + [x])[i] == rows[i];
    }
    assert (rows + [x])[|rows|] == x;
  }

  /** Two inserts in a row: the old rows stay first, and every added row is a
      candidate of one of them whose key was not in the table. */
  lemma InsertTwice<T, K>(rows: seq<T>, c1: seq<T>, c2: seq<T>, key: T -> K)
    ensures var r := InsertIfAbsent(InsertIfAbsent(rows, c1, key), c2, key);
      && |rows| <= |r| && r[..|rows|] == rows
      && forall i :: |rows| <= i < |r| ==> (r[i] in c1 || r[i] in c2) && key(r[i]) !in Keys(rows, key)
  {
    var mid := InsertIfAbsent(rows, c1, key);
    var r := InsertIfAbsent(mid, c2, key);
    InsertIfAbsentKeys(rows, c1, key);
    forall i | |rows| <= i < |r| ensures (r[i] in c1 || r[i] in c2) && key(r[i]) !in Keys(rows, key) {
      if i < |mid| {
        assert r[i] == mid[i];
      }
    }
  }

  /** Rows picked out of a sub-table propose no key the whole table does not. */
  lemma MapKeysSubset<T, U, K>(small: seq<T>, big: seq<T>, f: T -> U, key: U -> K)
    requires forall x :: x in small ==> x in big
    ensures Keys(Map(small, f), key) <= Keys(Map(big, f), key)
  {
    forall k | k in Keys(Map(small, f), key) ensures k in Keys(Map(big, f), key) {
      var i :| 0 <= i < |small| && key(Map(small, f)[i]) == k;
      assert small[i] in big;
      var j :| 0 <= j < |big| && big[j] == small[i];
      assert key(Map(big, f)[j]) == k;
    }
  }

  /** Selecting from the rows a delete kept selects rows of the whole table. */
  lemma FilterOfFilter<T>(s: seq<T>, keep: T -> bool, sel: T -> bool)
    ensures forall x :: x in Filter(Filter(s, keep), sel) ==> x in Filter(s, sel)
  {
    forall x | x in Filter(Filter(s, keep), sel) ensures x in Filter(s, sel) {
      var i :| 0 <= i < |Filter(Filter(s, keep), sel)| && Filter(Filter(s, keep), sel)[i] == x;
      assert x in Filter(s, keep) && sel(x);
      var j :| 0 <= j < |s| && s[j] == x;
    }
  }

  /** The unique constraint survives the insert. */
  lemma {:induction false} InsertIfAbsentUnique<T, K>(rows: seq<T>, cands: seq<T>, key: T -> K)
    requires UniqueKeys(rows, key)
    ensures UniqueKeys(InsertIfAbsent(rows, cands, key), key)
  {
    if cands != [] {
      var init := cands[..|cands| - 1];
      InsertIfAbsentUnique(rows, init, key);
      var prev := InsertIfAbsent(rows, init, key);
      var c := cands[|cands| - 1];
      if key(c) !in Keys(prev, key) {
        var r := prev + [c];
        forall i, j | 0 <= i < j < |r| ensures key(r[i]) != key(r[j]) {
          if j < |prev| {
            assert r[i] == prev[i] && r[j] == prev[j];
          } else {
            assert r[i] == prev[i];
          }
        }
      }
    }
  }

  /** A statement whose every candidate key is already present changes nothing. */
  lemma {:induction false} InsertIfAbsentPresent<T, K>(rows: seq<T>, cands: seq<T>, key: T -> K)
    requires Keys(cands, key) <= Keys(rows, key)
    ensures InsertIfAbsent(rows, cands, key) == rows
  {
    if cands != [] {
      var init := cands[..|cands| - 1];
      assert Keys(init, key) <= Keys(cands, key) by {
        forall k | k in Keys(init, key) ensures k in Keys(cands, key) {
          var i :| 0 <= i < |init| && key(init[i]) == k;
          assert init[i] == cands[i];
        }
      }
      InsertIfAbsentPresent(rows, init, key);
    }
  }

  /** Running the same insert twice adds nothing the second time. */
  lemma InsertIfAbsentIdempotent<T, K>(rows: seq<T>, cands: seq<T>, key: T -> K)
    ensures InsertIfAbsent(InsertIfAbsent(rows, cands, key), cands, key) == InsertIfAbsent(rows, cands, key)
  {
    InsertIfAbsentKeys(rows, cands, key);
    InsertIfAbsentPresent(InsertIfAbsent(rows, cands, key), cands, key);
  }

  /** `DELETE` keeps the rows the predicate spares; deleting again removes nothing. */
  lemma {:induction false} FilterIdempotent<T>(s: seq<T>, p: T -> bool)
    ensures Filter(Filter(s, p), p) == Filter(s, p)
  {
    if s != [] {
      FilterIdempotent(s[1..], p);
      if p(s[0]) {
        var t := Filter(s, p);
        assert t == [s[0]] + Filter(s[1..], p);
        assert t[0] == s[0] && t[1..] == Filter(s[1..], p);
        assert t != [] && p(t[0]);
        assert Filter(t[1..], p) == t[1..];
        assert Filter(t, p) == [t[0]] + Filter(t[1..], p);
        assert t == [t[0]] + t[1..];
      } else {
        assert Filter(s, p) == [] + Filter(s[1..], p) == Filter(s[1..], p);
      }
    }
  }

  // ---------------------------------------------------------------------
  // The statements

  /** `SELECT max(block_num) FROM daimo_transfers WHERE chain_id = ...`, read
      through `Number`: an empty selection gives NULL, which reads as 0. */
  function MaxBlockNum(rows: seq<DaimoTransfer>, chainId: nat): (r: nat)
    ensures forall i :: 0 <= i < |rows| && rows[i].chainId == chainId ==> rows[i].blockNum <= r
    ensures r == 0 || exists i :: 0 <= i < |rows| && rows[i].chainId == chainId && rows[i].blockNum == r
  {
    if rows == [] then 0
    else
      var prev := MaxBlockNum(rows[..|rows| - 1], chainId);
      var last := rows[|rows| - 1];
      assert forall i :: 0 <= i < |rows| - 1 ==> rows[..|rows| - 1][i] == rows[i];
      if last.chainId == chainId && last.blockNum > prev then last.blockNum else prev
  }

  function BlockKey(b: Block): (nat, nat)
  {
    (b.chainId, b.blockNum)
  }

  /** The unique key of `daimo_transfers`. */
  function TransferKey(d: DaimoTransfer): (nat, nat, nat, nat)
  {
    (d.chainId, d.blockNum, d.txIdx, d.sortIdx)
  }

  predicate InRange(blockNum: nat, p: Range)
  {
    p.from <= blockNum <= p.to
  }

  /** The `eth_transfers` rows the block and transfer inserts select. */
  predicate EthSelected(r: EthTransfer, p: Range)
  {
    r.igName == "eth_transfers" && r.srcName == p.trace && InRange(r.blockNum, p) && r.chainId == p.chainId
  }

  predicate Erc20Selected(r: Erc20Transfer, p: Range)
  {
    r.igName == "erc20_transfers" && r.srcName == p.event && InRange(r.blockNum, p) && r.chainId == p.chainId
  }

  function EthSel(p: Range): EthTransfer -> bool
  {
    (r: EthTransfer) => EthSelected(r, p)
  }

  function Erc20Sel(p: Range): Erc20Transfer -> bool
  {
    (r: Erc20Transfer) => Erc20Selected(r, p)
  }

  /** The guessed timestamp of a block: two seconds per block. */
  function BlockTs(blockNum: nat, p: Range): int
  {
    blockNum * 2 + p.blockTsOffset
  }

  /** The block rows the first insert proposes (`SELECT DISTINCT` does not
      change what an insert-if-absent stores). */
  function EthBlocks(eth: seq<EthTransfer>, p: Range): (r: seq<Block>)
    ensures forall i :: 0 <= i < |r| ==> InRange(r[i].blockNum, p) && r[i].chainId == p.chainId
                                         && r[i].blockTs == BlockTs(r[i].blockNum, p)
  {
    Map(Filter(eth, EthSel(p)), EthBlockOf(p))
  }

  function EthBlockOf(p: Range): EthTransfer -> Block
  {
    (r: EthTransfer) => Block(r.chainId, r.blockNum, r.blockHash, BlockTs(r.blockNum, p))
  }

  function Erc20Blocks(erc20: seq<Erc20Transfer>, p: Range): (r: seq<Block>)
    ensures forall i :: 0 <= i < |r| ==> InRange(r[i].blockNum, p) && r[i].chainId == p.chainId
                                         && r[i].blockTs == BlockTs(r[i].blockNum, p)
  {
    Map(Filter(erc20, Erc20Sel(p)), Erc20BlockOf(p))
  }

  function Erc20BlockOf(p: Range): Erc20Transfer -> Block
  {
    (r: Erc20Transfer) => Block(r.chainId, r.blockNum, r.blockHash, BlockTs(r.blockNum, p))
  }

  /** The rows the delete pass removes: in the range and the source, with
      neither party a known name. The delete does not test the chain. */
  predicate EthUnmatched(r: EthTransfer, p: Range, names: set<nat>)
  {
    r.igName == "eth_transfers" && r.srcName == p.trace && InRange(r.blockNum, p)
    && r.from !in names && r.to !in names
  }

  predicate Erc20Unmatched(r: Erc20Transfer, p: Range, names: set<nat>)
  {
    r.igName == "erc20_transfers" && r.srcName == p.event && InRange(r.blockNum, p)
    && r.f !in names && r.t !in names
  }

  function EthKeep(p: Range, names: set<nat>): EthTransfer -> bool
  {
    (r: EthTransfer) => !EthUnmatched(r, p, names)
  }

  function Erc20Keep(p: Range, names: set<nat>): Erc20Transfer -> bool
  {
    (r: Erc20Transfer) => !Erc20Unmatched(r, p, names)
  }

  function KeptEth(eth: seq<EthTransfer>, p: Range, names: set<nat>): seq<EthTransfer>
  {
    Filter(eth, EthKeep(p, names))
  }

  function KeptErc20(erc20: seq<Erc20Transfer>, p: Range, names: set<nat>): seq<Erc20Transfer>
  {
    Filter(erc20, Erc20Keep(p, names))
  }

  /** A native transfer as a `daimo_transfers` row: odd sort index, no token. */
  function FromEth(r: EthTransfer, p: Range): (d: DaimoTransfer)
    ensures d.sortIdx % 2 == 1 && d.token.None?
  {
    DaimoTransfer(r.chainId, r.blockNum, r.blockHash, BlockTs(r.blockNum, p), r.txIdx, r.txHash,
                  r.traceActionIdx * 2 + 1, None, r.from, r.to, r.value)
  }

  /** A token transfer as a `daimo_transfers` row: even sort index, the token
      contract as `token`. */
  function FromErc20(r: Erc20Transfer, p: Range): (d: DaimoTransfer)
    ensures d.sortIdx % 2 == 0 && d.token == Some(r.logAddr)
  {
    DaimoTransfer(r.chainId, r.blockNum, r.blockHash, BlockTs(r.blockNum, p), r.txIdx, r.txHash,
                  r.logIdx * 2, Some(r.logAddr), r.f, r.t, r.v)
  }

  /** The rows the final insert proposes: the `UNION ALL` of both sources. */
  function TransferCands(eth: seq<EthTransfer>, erc20: seq<Erc20Transfer>, p: Range): (r: seq<DaimoTransfer>)
    ensures forall i :: 0 <= i < |r| ==> InRange(r[i].blockNum, p) && r[i].chainId == p.chainId
  {
    Map(Filter(eth, EthSel(p)), (r: EthTransfer) => FromEth(r, p))
    + Map(Filter(erc20, Erc20Sel(p)), (r: Erc20Transfer) => FromErc20(r, p))
  }

  /** What `load` does to the tables: nothing when `daimo_transfers` already
      reaches `to`; otherwise the block inserts, the deletes and the transfer
      insert, in that order. */
  function Reduced(s: Tables, p: Range): (r: Tables)
    ensures r.names == s.names
    ensures s.blocks <= r.blocks && s.daimo <= r.daimo
  {
    if MaxBlockNum(s.daimo, p.chainId) >= p.to then s
    else
      var blocks := InsertIfAbsent(InsertIfAbsent(s.blocks, EthBlocks(s.eth, p), BlockKey), Erc20Blocks(s.erc20, p), BlockKey);
      var eth := KeptEth(s.eth, p, s.names);
      var erc20 := KeptErc20(s.erc20, p, s.names);
      Tables(blocks, eth, erc20, s.names, InsertIfAbsent(s.daimo, TransferCands(eth, erc20, p), TransferKey))
  }

  // ---------------------------------------------------------------------
  // Properties of the reduction

  /** A range already covered changes nothing. */
  lemma DoneRangeUnchanged(s: Tables, p: Range)
    requires exists i :: 0 <= i < |s.daimo| && s.daimo[i].chainId == p.chainId && s.daimo[i].blockNum >= p.to
    ensures Reduced(s, p) == s
  {
  }

  /** Existing block rows are kept as they were; every added block row is in
      the range, is new, and carries the guessed timestamp. */
  lemma BlocksBackfilled(s: Tables, p: Range)
    ensures var r := Reduced(s, p).blocks;
      && |s.blocks| <= |r| && r[..|s.blocks|] == s.blocks
      && forall i :: |s.blocks| <= i < |r| ==>
           InRange(r[i].blockNum, p) && r[i].blockTs == BlockTs(r[i].blockNum, p)
           && BlockKey(r[i]) !in Keys(s.blocks, BlockKey)
  {
    if MaxBlockNum(s.daimo, p.chainId) < p.to {
      InsertTwice(s.blocks, EthBlocks(s.eth, p), Erc20Blocks(s.erc20, p), BlockKey);
    }
  }

  /** After the delete pass every selected raw row in the range has a known
      name as one of its parties, and no row outside the range or the source
      was deleted. */
  lemma DeletePassKeepsNamed(s: Tables, p: Range)
    requires MaxBlockNum(s.daimo, p.chainId) < p.to
    ensures var r := Reduced(s, p);
      && (forall i :: 0 <= i < |r.eth| && EthSelected(r.eth[i], p) ==> r.eth[i].from in s.names || r.eth[i].to in s.names)
      && (forall i :: 0 <= i < |r.erc20| && Erc20Selected(r.erc20[i], p) ==> r.erc20[i].f in s.names || r.erc20[i].t in s.names)
      && (forall i :: 0 <= i < |s.eth| && !InRange(s.eth[i].blockNum, p) ==> s.eth[i] in r.eth)
      && (forall i :: 0 <= i < |s.erc20| && !InRange(s.erc20[i].blockNum, p) ==> s.erc20[i] in r.erc20)
  {
    var r := Reduced(s, p);
    assert r.eth == KeptEth(s.eth, p, s.names) && r.erc20 == KeptErc20(s.erc20, p, s.names);
    KeptEthNamed(s.eth, p, s.names);
    KeptErc20Named(s.erc20, p, s.names);
  }

  /** The native half of the delete pass. */
  lemma KeptEthNamed(eth: seq<EthTransfer>, p: Range, names: set<nat>)
    ensures var r := KeptEth(eth, p, names);
      && (forall i :: 0 <= i < |r| && EthSelected(r[i], p) ==> r[i].from in names || r[i].to in names)
      && (forall i :: 0 <= i < |eth| && !InRange(eth[i].blockNum, p) ==> eth[i] in r)
  {
    var r := KeptEth(eth, p, names);
    forall i | 0 <= i < |r| ensures EthKeep(p, names)(r[i]) {
    }
    forall i | 0 <= i < |eth| && !InRange(eth[i].blockNum, p) ensures eth[i] in r {
      assert EthKeep(p, names)(eth[i]);
    }
  }

  /** The token half of the delete pass. */
  lemma KeptErc20Named(erc20: seq<Erc20Transfer>, p: Range, names: set<nat>)
    ensures var r := KeptErc20(erc20, p, names);
      && (forall i :: 0 <= i < |r| && Erc20Selected(r[i], p) ==> r[i].f in names || r[i].t in names)
      && (forall i :: 0 <= i < |erc20| && !InRange(erc20[i].blockNum, p) ==> erc20[i] in r)
  {
    var r := KeptErc20(erc20, p, names);
    forall i | 0 <= i < |r| ensures Erc20Keep(p, names)(r[i]) {
    }
    forall i | 0 <= i < |erc20| && !InRange(erc20[i].blockNum, p) ensures erc20[i] in r {
      assert Erc20Keep(p, names)(erc20[i]);
    }
  }

  /** Native rows have odd and token rows even sort indices, so a native and
      a token transfer of the same transaction never share a key. */
  lemma SortIdxNeverCollides(a: EthTransfer, b: Erc20Transfer, p: Range)
    ensures TransferKey(FromEth(a, p)) != TransferKey(FromErc20(b, p))
  {
  }

  /** The key of `daimo_transfers` stays unique, and every added row lies in
      the range and on the chain. */
  lemma TransfersStayUnique(s: Tables, p: Range)
    requires UniqueKeys(s.daimo, TransferKey)
    ensures UniqueKeys(Reduced(s, p).daimo, TransferKey)
    ensures var r := Reduced(s, p).daimo;
      |s.daimo| <= |r| && r[..|s.daimo|] == s.daimo
      && forall i :: |s.daimo| <= i < |r| ==> InRange(r[i].blockNum, p) && r[i].chainId == p.chainId
  {
    if MaxBlockNum(s.daimo, p.chainId) < p.to {
      var eth := KeptEth(s.eth, p, s.names);
      var erc20 := KeptErc20(s.erc20, p, s.names);
      InsertIfAbsentUnique(s.daimo, TransferCands(eth, erc20, p), TransferKey);
    }
  }

  /** Re-running `load` on the same range changes nothing. */
  lemma ReducedIdempotent(s: Tables, p: Range)
    ensures Reduced(Reduced(s, p), p) == Reduced(s, p)
  {
    var s1 := Reduced(s, p);
    if MaxBlockNum(s.daimo, p.chainId) < p.to && MaxBlockNum(s1.daimo, p.chainId) < p.to {
      var mid := InsertIfAbsent(s.blocks, EthBlocks(s.eth, p), BlockKey);
      InsertIfAbsentKeys(s.blocks, EthBlocks(s.eth, p), BlockKey);
      InsertIfAbsentKeys(mid, Erc20Blocks(s.erc20, p), BlockKey);
      KeptBlocksKnown(s.eth, p, s.names);
      KeptErc20BlocksKnown(s.erc20, p, s.names);
      InsertIfAbsentPresent(s1.blocks, EthBlocks(s1.eth, p), BlockKey);
      InsertIfAbsentPresent(s1.blocks, Erc20Blocks(s1.erc20, p), BlockKey);
      FilterIdempotent(s.eth, EthKeep(p, s.names));
      FilterIdempotent(s.erc20, Erc20Keep(p, s.names));
      InsertIfAbsentIdempotent(s.daimo, TransferCands(s1.eth, s1.erc20, p), TransferKey);
    }
  }

  /** The surviving rows propose no block key the full table did not. */
  lemma KeptBlocksKnown(eth: seq<EthTransfer>, p: Range, names: set<nat>)
    ensures Keys(EthBlocks(KeptEth(eth, p, names), p), BlockKey) <= Keys(EthBlocks(eth, p), BlockKey)
  {
    FilterOfFilter(eth, EthKeep(p, names), EthSel(p));
    MapKeysSubset(Filter(KeptEth(eth, p, names), EthSel(p)), Filter(eth, EthSel(p)), EthBlockOf(p), BlockKey);
  }

  lemma KeptErc20BlocksKnown(erc20: seq<Erc20Transfer>, p: Range, names: set<nat>)
    ensures Keys(Erc20Blocks(KeptErc20(erc20, p, names), p), BlockKey) <= Keys(Erc20Blocks(erc20, p), BlockKey)
  {
    FilterOfFilter(erc20, Erc20Keep(p, names), Erc20Sel(p));
    MapKeysSubset(Filter(KeptErc20(erc20, p, names), Erc20Sel(p)), Filter(erc20, Erc20Sel(p)), Erc20BlockOf(p), BlockKey);
  }

  // ---------------------------------------------------------------------
  // The database

  /** The tables `load` reads and writes, updated statement by statement. */
  class Database {
    var blocks: seq<Block>
    var ethTransfers: seq<EthTransfer>
    var erc20Transfers: seq<Erc20Transfer>
    var names: set<nat>
    var daimoTransfers: seq<DaimoTransfer>

    function Snapshot(): Tables
      reads this
    {
      Tables(blocks, ethTransfers, erc20Transfers, names, daimoTransfers)
    }

    /** `ShovelSquared.load` for the range `p`. */
    method Load(p: Range)
      modifies this
      ensures Snapshot() == Reduced(old(Snapshot()), p)
      ensures names == old(names)
    {
      // Skip if already done.
      if MaxBlockNum(daimoTransfers, p.chainId) >= p.to {
        return;
      }
      // Port over the block rows.
      blocks := InsertIfAbsent(blocks, EthBlocks(ethTransfers, p), BlockKey);
      blocks := InsertIfAbsent(blocks, Erc20Blocks(erc20Transfers, p), BlockKey);
      // Delete rows that touch no name.
      ethTransfers := KeptEth(ethTransfers, p, names);
      erc20Transfers := KeptErc20(erc20Transfers, p, names);
      // Insert what remains.
      daimoTransfers := InsertIfAbsent(daimoTransfers, TransferCands(ethTransfers, erc20Transfers, p), TransferKey);
    }
  }
}
