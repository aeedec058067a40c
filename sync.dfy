/** Keeping the phone's account in step with the server
    (apps/daimo-mobile/src/sync/sync.ts): `applySync`, which merges a history
    result into the stored account, and the scheduler (`maybeSync`,
    `resync`, `fetchSync`) that decides when to fetch and counts failures.

    The RPC call is a parameter `rpc`, the wall clock a parameter `now`
    (seconds), and `guessTimestampFromNum` a parameter `guessTs`. */
module Sync {
  import opened Errors
  import opened Common
  import opened AccountModel
  import Decimal
  import SendAsync

  /** One transfer log of a history result. The server always fills in the
      block number and log index (the source reads both with `!`). */
  datatype HistoryLog = HistoryLog(
    from: Address,
    to: Address,
    amount: int,
    feeAmount: Option<int>,
    nonceMetadata: Option<Hex>,
    txHash: Option<Hex>,
    blockNumber: nat,
    blockHash: Option<Hex>,
    logIndex: nat,
    opHash: Option<Hex>)

  /** `AccountHistoryResult`, the fields `applySync` and `fetchSync` read.
      `accountKeys` is `None` when the server leaves it out. */
  datatype HistoryResult = HistoryResult(
    address: Address,
    sinceBlockNum: nat,
    lastBlock: nat,
    lastBlockTimestamp: int,
    lastBalance: string,
    lastFinalizedBlock: nat,
    chainGasConstants: ChainGasConstants,
    transferLogs: seq<HistoryLog>,
    namedAccounts: seq<EAccount>,
    accountKeys: Option<seq<KeyData>>)

  // ---------------------------------------------------------------------
  // The parts of applySync

  /** `t.blockNumber && ...`: block 0 is falsy. */
  predicate Truthy(b: Option<nat>)
  {
    b.Some? && b.value != 0
  }

  /** The old transfers `applySync` starts from: on chain strictly before the
      block the result starts at. */
  predicate Kept(t: OpEvent, sinceBlockNum: nat)
  {
    Truthy(t.blockNumber) && t.blockNumber.value < sinceBlockNum
  }

  function KeptTransfers(transfers: seq<OpEvent>, sinceBlockNum: nat): seq<OpEvent>
  {
    Filter(transfers, (t: OpEvent) => Kept(t, sinceBlockNum))
  }

  /** The comparator of `logs.sort`: by block number, then log index. */
  predicate LogBefore(a: HistoryLog, b: HistoryLog)
  {
    a.blockNumber < b.blockNumber || (a.blockNumber == b.blockNumber && a.logIndex <= b.logIndex)
  }

  predicate LogsSorted(logs: seq<HistoryLog>)
  {
    forall i :: 0 <= i < |logs| - 1 ==> LogBefore(logs[i], logs[i + 1])
  }

  /** Inserts `x` before the first element not strictly before it, so equal
      keys keep their input order. */
  function InsertLog(x: HistoryLog, sorted: seq<HistoryLog>): (r: seq<HistoryLog>)
    ensures multiset(r) == multiset(sorted) + multiset{x}
    ensures |r| == |sorted| + 1
    ensures r[0] == x || (sorted != [] && r[0] == sorted[0])
  {
    if sorted == [] || LogBefore(x, sorted[0]) then [x] + sorted
    else
      assert sorted == [sorted[0]] + sorted[1..];
      [sorted[0]] + InsertLog(x, sorted[1..])
  }

  lemma {:induction false} InsertLogSorted(x: HistoryLog, sorted: seq<HistoryLog>)
    requires LogsSorted(sorted)
    ensures LogsSorted(InsertLog(x, sorted))
  {
    if sorted != [] && !LogBefore(x, sorted[0]) {
      var tail := sorted[1..];
      assert LogsSorted(tail) by {
        forall i | 0 <= i < |tail| - 1 ensures LogBefore(tail[i], tail[i + 1]) {
          assert tail[i] == sorted[i + 1] && tail[i + 1] == sorted[i + 2];
        }
      }
      InsertLogSorted(x, tail);
      var rest := InsertLog(x, tail);
      var r := InsertLog(x, sorted);
      assert r == [sorted[0]] + rest;
      assert LogBefore(sorted[0], rest[0]) by {
        if rest[0] != x {
          assert rest[0] == sorted[1];
        }
      }
      forall i | 0 <= i < |r| - 1 ensures LogBefore(r[i], r[i + 1]) {
        if i > 0 {
          assert r[i] == rest[i - 1] && r[i + 1] == rest[i];
        }
      }
    }
  }

  /** `logs.sort(...)`, which is stable. */
  function SortLogs(logs: seq<HistoryLog>): (r: seq<HistoryLog>)
    ensures LogsSorted(r)
    ensures multiset(r) == multiset(logs)
    ensures |r| == |logs|
  {
    if logs == [] then []
    else
      assert logs == [logs[0]] + logs[1..];
      InsertLogSorted(logs[0], SortLogs(logs[1..]));
      InsertLog(logs[0], SortLogs(logs[1..]))
  }

  /** The op `addTransfers` pushes for one log. */
  function ToOpEvent(log: HistoryLog, guessTs: nat -> int): OpEvent
  {
    OpEvent(Transfer, Confirmed, log.from, log.to, log.amount, log.feeAmount, log.nonceMetadata,
            guessTs(log.blockNumber), log.txHash, Some(log.blockNumber), log.blockHash,
            Some(log.logIndex), log.opHash)
  }

  /** The ops for a list of logs, in the same order. */
  function ToOpEvents(logs: seq<HistoryLog>, guessTs: nat -> int): (r: seq<OpEvent>)
    ensures |r| == |logs|
    ensures forall i :: 0 <= i < |logs| ==> r[i] == ToOpEvent(logs[i], guessTs)
  {
    if logs == [] then []
    else ToOpEvents(logs[..|logs| - 1], guessTs) + [ToOpEvent(logs[|logs| - 1], guessTs)]
  }

  /** The mark-finalized step for one op. */
  function FinalizeIf(t: OpEvent, lastFinalizedBlock: nat): (r: OpEvent)
    ensures r == t.(status := r.status)
    ensures r.status == if Truthy(t.blockNumber) && t.blockNumber.value <= lastFinalizedBlock then Finalized else t.status
  {
    if Truthy(t.blockNumber) && t.blockNumber.value <= lastFinalizedBlock then t.(status := Finalized) else t
  }

  function FinalizeAll(ts: seq<OpEvent>, lastFinalizedBlock: nat): (r: seq<OpEvent>)
    ensures |r| == |ts|
    ensures forall i :: 0 <= i < |ts| ==> r[i] == FinalizeIf(ts[i], lastFinalizedBlock)
  {
    if ts == [] then []
    else FinalizeAll(ts[..|ts| - 1], lastFinalizedBlock) + [FinalizeIf(ts[|ts| - 1], lastFinalizedBlock)]
  }

  /** The account's transfer list as the pending filter sees it: the kept
      transfers are the same objects the mark-finalized loop has just
      updated, so their new status shows through. */
  function OldTransfersAfterFinalize(transfers: seq<OpEvent>, sinceBlockNum: nat, lastFinalizedBlock: nat): (r: seq<OpEvent>)
    ensures |r| == |transfers|
  {
    Map(transfers, (t: OpEvent) => if Kept(t, sinceBlockNum) then FinalizeIf(t, lastFinalizedBlock) else t)
  }

  function OldPending(transfers: seq<OpEvent>, sinceBlockNum: nat, lastFinalizedBlock: nat): seq<OpEvent>
  {
    Filter(OldTransfersAfterFinalize(transfers, sinceBlockNum, lastFinalizedBlock), (t: OpEvent) => t.status == Pending)
  }

  /** `syncFindSameOp`: the first op with the same op hash; an absent hash matches nothing. */
  function SyncFindSameOp(opHash: Option<Hex>, ops: seq<OpEvent>): (r: Option<OpEvent>)
    ensures opHash.None? ==> r.None?
    ensures r.None? <==> opHash.None? || forall i :: 0 <= i < |ops| ==> ops[i].opHash != opHash
    ensures r.Some? ==> r.value in ops && r.value.opHash == opHash
  {
    if opHash.None? || ops == [] then None
    else if ops[0].opHash == opHash then Some(ops[0])
    else
      var r := SyncFindSameOp(opHash, ops[1..]);
      assert forall i :: 1 <= i < |ops| ==> ops[i] == ops[1..][i - 1];
      r
  }

  /** An old pending op is still pending if nothing in the merged list has
      its op hash and its deadline has not passed at the result's last block. */
  predicate StillPending(t: OpEvent, merged: seq<OpEvent>, lastBlockTimestamp: int)
  {
    SyncFindSameOp(t.opHash, merged).None? && t.timestamp + SendAsync.SendDeadlineSecs > lastBlockTimestamp
  }

  function StillPendingFn(merged: seq<OpEvent>, lastBlockTimestamp: int): OpEvent -> bool
  {
    (t: OpEvent) => StillPending(t, merged, lastBlockTimestamp)
  }

  /** The key set of `addNamedAccounts`: address texts. */
  function AddrTexts(accounts: seq<EAccount>): set<(nat, bool)>
  {
    set i | 0 <= i < |accounts| :: AddrText(accounts[i].addr)
  }

  /** What the `addNamedAccounts` loop appends for `found`, given the
      address texts `seen` so far: each contact whose text is new, once. */
  function Added(seen: set<(nat, bool)>, found: seq<EAccount>): (r: seq<EAccount>)
    decreases |found|
    ensures |r| <= |found|
    ensures forall i :: 0 <= i < |r| ==> r[i] in found && AddrText(r[i].addr) !in seen
  {
    if found == [] then []
    else if AddrText(found[0].addr) in seen then Added(seen, found[1..])
    else [found[0]] + Added(seen + {AddrText(found[0].addr)}, found[1..])
  }

  /** `addNamedAccounts(old, found)`. */
  function AddNamedAccountsSpec(prev: seq<EAccount>, found: seq<EAccount>): seq<EAccount>
  {
    prev + Added(AddrTexts(prev), found)
  }

  /** A pending key rotation stays pending while the result does not show
      it yet: an add while its slot is absent, a remove while it is present. */
  predicate RotationPending(r: KeyRotationOp, keys: seq<KeyData>)
  {
    var slotAbsent := forall i :: 0 <= i < |keys| ==> keys[i].slot != r.slot;
    if r.rotationType == AddKey then slotAbsent else !slotAbsent
  }

  /** The pending-rotation filter. `result.accountKeys.find` throws a
      TypeError when the keys are missing and there is a rotation to test. */
  function StillPendingRotations(rotations: seq<KeyRotationOp>, keys: Option<seq<KeyData>>): (r: Result<seq<KeyRotationOp>>)
    ensures r.Err? <==> keys.None? && rotations != []
  {
    if rotations == [] then Ok([])
    else if keys.None? then Err("TypeError: Cannot read properties of undefined (reading 'find')")
    else Ok(Filter(rotations, (r: KeyRotationOp) => RotationPending(r, keys.value)))
  }

  /** The merged transfer list: kept old transfers then the sorted logs,
      with the mark-finalized step applied, then the old pending ops that
      are still pending. */
  function MergedTransfers(account: Account, result: HistoryResult, guessTs: nat -> int): (r: seq<OpEvent>)
    ensures |result.transferLogs| <= |r|
  {
    var confirmed := FinalizeAll(KeptTransfers(account.recentTransfers, result.sinceBlockNum)
                                 + ToOpEvents(SortLogs(result.transferLogs), guessTs), result.lastFinalizedBlock);
    confirmed + Filter(OldPending(account.recentTransfers, result.sinceBlockNum, result.lastFinalizedBlock),
                       StillPendingFn(confirmed, result.lastBlockTimestamp))
  }

  function MergedNamedAccounts(account: Account, result: HistoryResult): seq<EAccount>
  {
    if result.sinceBlockNum == 0 then result.namedAccounts
    else AddNamedAccountsSpec(account.namedAccounts, result.namedAccounts)
  }

  /** `applySync` as a function of the account and the result. */
  function ApplySyncSpec(account: Account, result: HistoryResult, guessTs: nat -> int): (r: Result<Account>)
    ensures !SameText(result.address, account.address) ==> r == Err(AssertionFailed)
    ensures r.Err? <==>
      || !SameText(result.address, account.address)
      || (&& result.lastFinalizedBlock >= account.lastFinalizedBlock
          && (StillPendingRotations(account.pendingKeyRotation, result.accountKeys).Err?
              || Decimal.ParseBigInt(result.lastBalance).Err?))
    ensures r.Ok? ==> r.value.address == account.address && r.value.lastFinalizedBlock >= account.lastFinalizedBlock
  {
    if !SameText(result.address, account.address) then Err(AssertionFailed)
    else if result.lastFinalizedBlock < account.lastFinalizedBlock then Ok(account)
    else match StillPendingRotations(account.pendingKeyRotation, result.accountKeys)
      case Err(m) => Err(m)
      case Ok(rotations) =>
        match Decimal.ParseBigInt(result.lastBalance)
        case Err(m) => Err(m)
        case Ok(balance) =>
          Ok(account.(
            lastBalance := balance,
            lastBlock := result.lastBlock,
            lastBlockTimestamp := result.lastBlockTimestamp,
            lastFinalizedBlock := result.lastFinalizedBlock,
            chainGasConstants := result.chainGasConstants,
            recentTransfers := MergedTransfers(account, result, guessTs),
            namedAccounts := MergedNamedAccounts(account, result),
            accountKeys := result.accountKeys.GetOr([]),
            pendingKeyRotation := rotations))
  }

  // ---------------------------------------------------------------------
  // applySync, step by step

  /** `addTransfers`: the old list, then one confirmed transfer per log in
      sorted order. */
  method AddTransfers(prev: seq<OpEvent>, logs: seq<HistoryLog>, guessTs: nat -> int) returns (ret: seq<OpEvent>)
    ensures ret == prev + ToOpEvents(SortLogs(logs), guessTs)
  {
    ret := prev;
    var sorted := SortLogs(logs);
    for i := 0 to |sorted|
      invariant ret == prev + ToOpEvents(sorted[..i], guessTs)
    {
      assert sorted[..i + 1][..i] == sorted[..i];
      ret := ret + [ToOpEvent(sorted[i], guessTs)];
    }
    assert sorted[..|sorted|] == sorted;
  }

  /** The mark-finalized loop. */
  method MarkFinalized(transfers: seq<OpEvent>, lastFinalizedBlock: nat) returns (ret: seq<OpEvent>)
    ensures ret == FinalizeAll(transfers, lastFinalizedBlock)
  {
    ret := transfers;
    for i := 0 to |ret|
      invariant |ret| == |transfers|
      invariant ret[..i] == FinalizeAll(transfers[..i], lastFinalizedBlock)
      invariant ret[i..] == transfers[i..]
    {
      var t := ret[i];
      assert t == transfers[i];
      if Truthy(t.blockNumber) && t.blockNumber.value <= lastFinalizedBlock {
        ret := ret[i := t.(status := Finalized)];
      }
      assert transfers[..i + 1][..i] == transfers[..i];
      assert ret[..i + 1] == ret[..i] + [ret[i]];
    }
    assert transfers[..|transfers|] == transfers;
  }

  /** `addNamedAccounts`: the old contacts, then each found contact whose
      address text is not yet present. */
  method AddNamedAccounts(prev: seq<EAccount>, found: seq<EAccount>) returns (ret: seq<EAccount>)
    ensures ret == AddNamedAccountsSpec(prev, found)
  {
    ret := prev;
    var addrs := AddrTexts(prev);
    for i := 0 to |found|
      invariant ret + Added(addrs, found[i..]) == AddNamedAccountsSpec(prev, found)
    {
      var na := found[i];
      assert found[i..] == [na] + found[i + 1..];
      if AddrText(na.addr) in addrs {
        continue;
      }
      addrs := addrs + {AddrText(na.addr)};
      ret := ret + [na];
    }
  }

  /** `applySync`. */
  method ApplySync(account: Account, result: HistoryResult, guessTs: nat -> int) returns (r: Result<Account>)
    ensures r == ApplySyncSpec(account, result, guessTs)
  {
    var check := Assert(SameText(result.address, account.address), None);
    if check.Err? {
      return Err(check.msg);
    }
    if result.lastFinalizedBlock < account.lastFinalizedBlock {
      return Ok(account);
    }
    var oldFinalized := KeptTransfers(account.recentTransfers, result.sinceBlockNum);
    var recentTransfers := AddTransfers(oldFinalized, result.transferLogs, guessTs);
    recentTransfers := MarkFinalized(recentTransfers, result.lastFinalizedBlock);
    var oldPending := OldPending(account.recentTransfers, result.sinceBlockNum, result.lastFinalizedBlock);
    var stillPending := Filter(oldPending, StillPendingFn(recentTransfers, result.lastBlockTimestamp));
    recentTransfers := recentTransfers + stillPending;

    var namedAccounts: seq<EAccount>;
    if result.sinceBlockNum == 0 {
      namedAccounts := result.namedAccounts;
    } else {
      namedAccounts := AddNamedAccounts(account.namedAccounts, result.namedAccounts);
    }

    var rotations := StillPendingRotations(account.pendingKeyRotation, result.accountKeys);
    if rotations.Err? {
      return Err(rotations.msg);
    }
    var balance := Decimal.ParseBigInt(result.lastBalance);
    if balance.Err? {
      return Err(balance.msg);
    }
    r := Ok(account.(
      lastBalance := balance.value,
      lastBlock := result.lastBlock,
      lastBlockTimestamp := result.lastBlockTimestamp,
      lastFinalizedBlock := result.lastFinalizedBlock,
      chainGasConstants := result.chainGasConstants,
      recentTransfers := recentTransfers,
      namedAccounts := namedAccounts,
      accountKeys := result.accountKeys.GetOr([]),
      pendingKeyRotation := rotations.value));
  }

  // ---------------------------------------------------------------------
  // What applySync guarantees

  /** A result whose finalized block is behind the account's changes nothing. */
  lemma StaleResultIgnored(account: Account, result: HistoryResult, guessTs: nat -> int)
    requires SameText(result.address, account.address)
    requires result.lastFinalizedBlock < account.lastFinalizedBlock
    ensures ApplySyncSpec(account, result, guessTs) == Ok(account)
  {
  }

  /** A result for another address is rejected. */
  lemma WrongAddressRejected(account: Account, result: HistoryResult, guessTs: nat -> int)
    requires !SameText(result.address, account.address)
    ensures ApplySyncSpec(account, result, guessTs) == Err(AssertionFailed)
  {
  }

  /** The merged list starts with the kept old transfers and then one op
      per sorted log, each through the mark-finalized step. */
  lemma MergedOps(account: Account, result: HistoryResult, guessTs: nat -> int)
    ensures var merged := MergedTransfers(account, result, guessTs);
      var ops := KeptTransfers(account.recentTransfers, result.sinceBlockNum)
                 + ToOpEvents(SortLogs(result.transferLogs), guessTs);
      && |merged| >= |ops|
      && forall i :: 0 <= i < |ops| ==> merged[i] == FinalizeIf(ops[i], result.lastFinalizedBlock)
  {
    var ops := KeptTransfers(account.recentTransfers, result.sinceBlockNum)
               + ToOpEvents(SortLogs(result.transferLogs), guessTs);
    var confirmed := FinalizeAll(ops, result.lastFinalizedBlock);
    var merged := MergedTransfers(account, result, guessTs);
    assert merged[..|confirmed|] == confirmed;
  }

  /** The kept old transfers come first. */
  lemma MergedKeptPrefix(account: Account, result: HistoryResult, guessTs: nat -> int)
    ensures var merged := MergedTransfers(account, result, guessTs);
      var kept := KeptTransfers(account.recentTransfers, result.sinceBlockNum);
      && |merged| >= |kept|
      && forall i :: 0 <= i < |kept| ==> merged[i] == FinalizeIf(kept[i], result.lastFinalizedBlock)
  {
    var kept := KeptTransfers(account.recentTransfers, result.sinceBlockNum);
    var ops := kept + ToOpEvents(SortLogs(result.transferLogs), guessTs);
    MergedOps(account, result, guessTs);
    assert forall i :: 0 <= i < |kept| ==> ops[i] == kept[i];
  }

  /** The ops for the sorted logs follow the kept old transfers. */
  lemma MergedLogsPrefix(account: Account, result: HistoryResult, guessTs: nat -> int)
    ensures var merged := MergedTransfers(account, result, guessTs);
      var kept := KeptTransfers(account.recentTransfers, result.sinceBlockNum);
      var sorted := SortLogs(result.transferLogs);
      && |merged| >= |kept| + |sorted|
      && forall i :: 0 <= i < |sorted| ==>
           merged[|kept| + i] == FinalizeIf(ToOpEvent(sorted[i], guessTs), result.lastFinalizedBlock)
  {
    var kept := KeptTransfers(account.recentTransfers, result.sinceBlockNum);
    var sorted := SortLogs(result.transferLogs);
    var ops := kept + ToOpEvents(sorted, guessTs);
    var merged := MergedTransfers(account, result, guessTs);
    MergedOps(account, result, guessTs);
    forall i | 0 <= i < |sorted|
      ensures merged[|kept| + i] == FinalizeIf(ToOpEvent(sorted[i], guessTs), result.lastFinalizedBlock)
    {
      assert ops[|kept| + i] == ToOpEvents(sorted, guessTs)[i];
    }
  }

  /** The merged list begins with the kept old transfers in their order,
      status aside; one that was pending ends up finalized when its block
      is, and a confirmed or finalized one is never pending again. */
  lemma MergedKeepsOld(account: Account, result: HistoryResult, guessTs: nat -> int)
    ensures var merged := MergedTransfers(account, result, guessTs);
      var kept := KeptTransfers(account.recentTransfers, result.sinceBlockNum);
      && |merged| >= |kept|
      && (forall i :: 0 <= i < |kept| ==> merged[i] == kept[i].(status := merged[i].status))
      && (forall i :: 0 <= i < |kept| ==> Kept(merged[i], result.sinceBlockNum) && merged[i].status != Pending)
          <== (forall i :: 0 <= i < |kept| ==> kept[i].status != Pending || kept[i].blockNumber.value <= result.lastFinalizedBlock)
  {
    var kept := KeptTransfers(account.recentTransfers, result.sinceBlockNum);
    MergedKeptPrefix(account, result, guessTs);
    forall i | 0 <= i < |kept| ensures Kept(kept[i], result.sinceBlockNum) {
      assert kept[i] in account.recentTransfers;
    }
  }

  /** After the kept transfers comes one transfer per log in (block, log
      index) order, each confirmed unless its block is finalized. */
  lemma MergedAppendsLogs(account: Account, result: HistoryResult, guessTs: nat -> int)
    ensures var merged := MergedTransfers(account, result, guessTs);
      var kept := KeptTransfers(account.recentTransfers, result.sinceBlockNum);
      var sorted := SortLogs(result.transferLogs);
      && |merged| >= |kept| + |sorted|
      && (forall i :: 0 <= i < |sorted| ==> LogOpIs(merged[|kept| + i], sorted[i], guessTs, result.lastFinalizedBlock))
      && LogsSorted(sorted) && multiset(sorted) == multiset(result.transferLogs)
  {
    MergedLogsPrefix(account, result, guessTs);
  }

  /** `t` is the op for `log` after the mark-finalized step. */
  predicate LogOpIs(t: OpEvent, log: HistoryLog, guessTs: nat -> int, lastFinalizedBlock: nat)
  {
    && t.opType == Transfer
    && t.blockNumber == Some(log.blockNumber) && t.logIndex == Some(log.logIndex)
    && t.opHash == log.opHash && t.amount == log.amount
    && t.timestamp == guessTs(log.blockNumber)
    && t.status == (if log.blockNumber != 0 && log.blockNumber <= lastFinalizedBlock then Finalized else Confirmed)
  }

  /** An old pending op (as the filter sees it, after the finalize step) is
      appended again exactly when no merged op has its op hash and its
      deadline is still ahead of the result's last block time. */
  lemma PendingSurvival(account: Account, result: HistoryResult, guessTs: nat -> int, t: OpEvent)
    requires t in OldPending(account.recentTransfers, result.sinceBlockNum, result.lastFinalizedBlock)
    ensures var confirmed := FinalizeAll(KeptTransfers(account.recentTransfers, result.sinceBlockNum)
                                         + ToOpEvents(SortLogs(result.transferLogs), guessTs), result.lastFinalizedBlock);
      var merged := MergedTransfers(account, result, guessTs);
      && merged[..|confirmed|] == confirmed
      && (t in merged[|confirmed|..] <==>
            (t.opHash.None? || forall i :: 0 <= i < |confirmed| ==> confirmed[i].opHash != t.opHash)
            && t.timestamp + SendAsync.SendDeadlineSecs > result.lastBlockTimestamp)
  {
    var confirmed := FinalizeAll(KeptTransfers(account.recentTransfers, result.sinceBlockNum)
                                 + ToOpEvents(SortLogs(result.transferLogs), guessTs), result.lastFinalizedBlock);
    var merged := MergedTransfers(account, result, guessTs);
    var pending := OldPending(account.recentTransfers, result.sinceBlockNum, result.lastFinalizedBlock);
    assert merged[|confirmed|..] == Filter(pending, StillPendingFn(confirmed, result.lastBlockTimestamp));
    FilterMember(pending, StillPendingFn(confirmed, result.lastBlockTimestamp), t);
  }

  /** Ops whose block is truthy and not after the finalized block are
      finalized: the mark-finalized pass reaches every kept and new op. */
  lemma FinalizedPrefix(account: Account, result: HistoryResult, guessTs: nat -> int)
    ensures var confirmed := FinalizeAll(KeptTransfers(account.recentTransfers, result.sinceBlockNum)
                                         + ToOpEvents(SortLogs(result.transferLogs), guessTs), result.lastFinalizedBlock);
      forall i :: 0 <= i < |confirmed| ==>
        (Truthy(confirmed[i].blockNumber) && confirmed[i].blockNumber.value <= result.lastFinalizedBlock ==>
           confirmed[i].status == Finalized)
  {
  }

  /** No two contacts share an address text. */
  predicate TextsDistinct(s: seq<EAccount>)
  {
    forall i, j :: 0 <= i < j < |s| ==> AddrText(s[i].addr) != AddrText(s[j].addr)
  }

  /** The contacts after a sync that does not start from scratch: the old
      list is a prefix, every added contact was found and has an address
      text not in the old list, no address text is added twice, and the
      address texts present are exactly the old ones and the found ones. */
  lemma NamedAccountsMerge(prev: seq<EAccount>, found: seq<EAccount>)
    ensures var r := AddNamedAccountsSpec(prev, found);
      && |r| >= |prev| && r[..|prev|] == prev
      && (forall i :: |prev| <= i < |r| ==> r[i] in found && AddrText(r[i].addr) !in AddrTexts(prev))
      && TextsDistinct(r[|prev|..])
      && AddrTexts(r) == AddrTexts(prev) + AddrTexts(found)
  {
    var added := Added(AddrTexts(prev), found);
    var r := prev + added;
    AddedDistinct(AddrTexts(prev), found);
    AddedCovers(AddrTexts(prev), found);
    assert r[|prev|..] == added;
    forall i | |prev| <= i < |r| ensures r[i] == added[i - |prev|] { }
    AddrTextsConcat(prev, added);
  }

  lemma AddrTextsConcat(a: seq<EAccount>, b: seq<EAccount>)
    ensures AddrTexts(a + b) == AddrTexts(a) + AddrTexts(b)
  {
    var ab := a + b;
    forall k | k in AddrTexts(ab) ensures k in AddrTexts(a) + AddrTexts(b) {
      var i :| 0 <= i < |ab| && AddrText(ab[i].addr) == k;
      if i < |a| { assert ab[i] == a[i]; } else { assert ab[i] == b[i - |a|]; }
    }
    forall k | k in AddrTexts(a) + AddrTexts(b) ensures k in AddrTexts(ab) {
      if k in AddrTexts(a) {
        var i :| 0 <= i < |a| && AddrText(a[i].addr) == k;
        assert ab[i] == a[i];
      } else {
        var i :| 0 <= i < |b| && AddrText(b[i].addr) == k;
        assert ab[|a| + i] == b[i];
      }
    }
  }

  /** No address text is appended twice. */
  lemma {:induction false} AddedDistinct(seen: set<(nat, bool)>, found: seq<EAccount>)
    decreases |found|
    ensures TextsDistinct(Added(seen, found))
  {
    if found != [] {
      var key := AddrText(found[0].addr);
      if key in seen {
        AddedDistinct(seen, found[1..]);
      } else {
        AddedDistinct(seen + {key}, found[1..]);
        var rest := Added(seen + {key}, found[1..]);
        var r := Added(seen, found);
        assert r == [found[0]] + rest;
        forall i, j | 0 <= i < j < |r| ensures AddrText(r[i].addr) != AddrText(r[j].addr) {
          assert r[j] == rest[j - 1];
          if i > 0 { assert r[i] == rest[i - 1]; }
        }
      }
    }
  }

  /** Together with `seen`, the appended contacts carry every found address text. */
  lemma {:induction false} AddedCovers(seen: set<(nat, bool)>, found: seq<EAccount>)
    decreases |found|
    ensures seen + AddrTexts(Added(seen, found)) == seen + AddrTexts(found)
  {
    if found != [] {
      var key := AddrText(found[0].addr);
      assert found == [found[0]] + found[1..];
      AddrTextsConcat([found[0]], found[1..]);
      assert AddrTexts([found[0]]) == {key};
      if key in seen {
        AddedCovers(seen, found[1..]);
      } else {
        AddedCovers(seen + {key}, found[1..]);
        var rest := Added(seen + {key}, found[1..]);
        AddrTextsConcat([found[0]], rest);
      }
    }
  }

  /** Every field `applySync` does not set keeps its value, and the fields it
      sets come from the result. */
  lemma ApplySyncFields(account: Account, result: HistoryResult, guessTs: nat -> int)
    requires ApplySyncSpec(account, result, guessTs).Ok?
    requires result.lastFinalizedBlock >= account.lastFinalizedBlock
    ensures var a := ApplySyncSpec(account, result, guessTs).value;
      && a.lastBlock == result.lastBlock
      && a.lastBlockTimestamp == result.lastBlockTimestamp
      && a.lastFinalizedBlock == result.lastFinalizedBlock
      && Decimal.ParseBigInt(result.lastBalance) == Ok(a.lastBalance)
      && a.chainGasConstants == result.chainGasConstants
      && a.accountKeys == (if result.accountKeys.Some? then result.accountKeys.value else [])
      && a.namedAccounts == (if result.sinceBlockNum == 0 then result.namedAccounts
                             else AddNamedAccountsSpec(account.namedAccounts, result.namedAccounts))
      && (forall k :: 0 <= k < |a.pendingKeyRotation| ==>
            a.pendingKeyRotation[k] in account.pendingKeyRotation
            && RotationPending(a.pendingKeyRotation[k], a.accountKeys))
      && (forall k :: 0 <= k < |account.pendingKeyRotation| && RotationPending(account.pendingKeyRotation[k], a.accountKeys) ==>
            account.pendingKeyRotation[k] in a.pendingKeyRotation)
      && a.(lastBalance := account.lastBalance, lastBlock := account.lastBlock,
            lastBlockTimestamp := account.lastBlockTimestamp, lastFinalizedBlock := account.lastFinalizedBlock,
            chainGasConstants := account.chainGasConstants, recentTransfers := account.recentTransfers,
            namedAccounts := account.namedAccounts, accountKeys := account.accountKeys,
            pendingKeyRotation := account.pendingKeyRotation) == account
  {
    var rotations := StillPendingRotations(account.pendingKeyRotation, result.accountKeys);
    var balance := Decimal.ParseBigInt(result.lastBalance);
    assert rotations.Ok? && balance.Ok?;
    assert ApplySyncSpec(account, result, guessTs).value == account.(
      lastBalance := balance.value,
      lastBlock := result.lastBlock,
      lastBlockTimestamp := result.lastBlockTimestamp,
      lastFinalizedBlock := result.lastFinalizedBlock,
      chainGasConstants := result.chainGasConstants,
      recentTransfers := MergedTransfers(account, result, guessTs),
      namedAccounts := MergedNamedAccounts(account, result),
      accountKeys := result.accountKeys.GetOr([]),
      pendingKeyRotation := rotations.value);
  }

  // ---------------------------------------------------------------------
  // The scheduler

  /** `hasPendingOps`. */
  predicate HasPendingOps(account: Account)
    ensures HasPendingOps(account) <==>
      (exists i :: 0 <= i < |account.recentTransfers| && account.recentTransfers[i].status == Pending)
      || account.pendingKeyRotation != []
  {
    Exists(account.recentTransfers, (t: OpEvent) => t.status == Pending) || |account.pendingKeyRotation| > 0
  }

  datatype NetStatus = Online | Offline

  /** The sync interval in seconds: fast while something is pending or the
      last sync failed while still online. */
  function SyncInterval(account: Account, status: NetStatus, syncAttemptsFailed: nat): (s: nat)
    ensures s == 1 || s == 10
    ensures s == 1 <==> HasPendingOps(account) || (status == Online && syncAttemptsFailed > 0)
  {
    if HasPendingOps(account) || (status == Online && syncAttemptsFailed > 0) then 1 else 10
  }

  datatype SyncDecision = FromScratch | AfterPush | Skip | OnInterval

  /** Which branch of `maybeSync` runs. */
  function Decide(fromScratch: bool, now: real, lastPushS: real, lastSyncS: real, interval: nat): (d: SyncDecision)
    ensures d == Skip <==> !fromScratch && lastPushS + 10.0 <= now && lastSyncS + interval as real > now
    ensures d == FromScratch <==> fromScratch
  {
    if fromScratch then FromScratch
    else if lastPushS + 10.0 > now then AfterPush
    else if lastSyncS + interval as real > now then Skip
    else OnInterval
  }

  /** Whether a failed sync counter shows the offline banner. */
  function StatusAfterFailures(syncAttemptsFailed: nat): (s: NetStatus)
    ensures s == Offline <==> syncAttemptsFailed > 3
  {
    if syncAttemptsFailed > 3 then Offline else Online
  }

  /** The checks `fetchSync` makes on the server's answer. */
  function ValidateResult(account: Account, sinceBlockNum: nat, result: HistoryResult): (r: Result<HistoryResult>)
    ensures r.Ok? <==>
      SameText(result.address, account.address) && result.sinceBlockNum == sinceBlockNum
      && result.lastBlock >= result.sinceBlockNum && result.lastBlockTimestamp > 0
      && |result.chainGasConstants.paymasterAddress| % 2 == 0
    ensures r.Ok? ==> r.value == result
  {
    if !SameText(result.address, account.address) then Err(AssertionFailed)
    else if result.sinceBlockNum != sinceBlockNum then Err(AssertionFailed)
    else if result.lastBlock < result.sinceBlockNum then Err(AssertionFailed)
    else if result.lastBlockTimestamp <= 0 then Err(AssertionFailed)
    else if |result.chainGasConstants.paymasterAddress| % 2 != 0 then
      Err("invalid paymasterAndData " + result.chainGasConstants.paymasterAddress)
    else Ok(result)
  }

  /** `fetchSync`: ask from block 0 when starting from scratch, else from the
      last finalized block, and validate the answer. */
  function FetchSync(account: Account, fromScratch: bool, rpc: (Address, nat) -> Result<HistoryResult>): (r: Result<HistoryResult>)
    ensures r.Ok? ==> r.value.sinceBlockNum == (if fromScratch then 0 else account.lastFinalizedBlock)
    ensures r.Ok? ==> rpc(account.address, r.value.sinceBlockNum) == Ok(r.value)
    ensures var since := if fromScratch then 0 else account.lastFinalizedBlock;
      && (r.Ok? <==>
            && rpc(account.address, since).Ok?
            && rpc(account.address, since).value.accountKeys.Some?
            && ValidateResult(account, since, rpc(account.address, since).value).Ok?)
      && (rpc(account.address, since).Err? ==> r == Err(rpc(account.address, since).msg))
      && (rpc(account.address, since).Ok? && rpc(account.address, since).value.accountKeys.None? ==>
            r == Err(MissingKeysError))
    ensures r.Ok? ==>
      && SameText(r.value.address, account.address)
      && r.value.lastBlock >= r.value.sinceBlockNum && r.value.lastBlockTimestamp > 0
      && r.value.accountKeys.Some?
  {
    var since := if fromScratch then 0 else account.lastFinalizedBlock;
    match rpc(account.address, since)
    case Err(m) => Err(m)
    case Ok(result) =>
      // The log summary reads `result.accountKeys.length` before validating.
      if result.accountKeys.None? then Err(MissingKeysError)
      else ValidateResult(account, since, result)
  }

  const MissingKeysError := "TypeError: Cannot read properties of undefined (reading 'length')"

  /** An answer without a key list fails the sync, even with no rotation
      pending: `applySync` is never reached. */
  lemma MissingKeysFailSync(account: Account, fromScratch: bool, rpc: (Address, nat) -> Result<HistoryResult>,
                            guessTs: nat -> int)
    requires var since := if fromScratch then 0 else account.lastFinalizedBlock;
      rpc(account.address, since).Ok? && rpc(account.address, since).value.accountKeys.None?
    ensures Synced(account, fromScratch, rpc, guessTs) == Err(MissingKeysError)
  {
  }

  /** The body of `resync`'s try block: fetch the history and apply it. */
  function Synced(account: Account, fromScratch: bool, rpc: (Address, nat) -> Result<HistoryResult>,
                  guessTs: nat -> int): (r: Result<Account>)
    ensures FetchSync(account, fromScratch, rpc).Err? ==> r == Err(FetchSync(account, fromScratch, rpc).msg)
    ensures r.Ok? ==>
      && FetchSync(account, fromScratch, rpc).Ok?
      && r.value.address == account.address
      && r.value.lastFinalizedBlock >= account.lastFinalizedBlock
  {
    match FetchSync(account, fromScratch, rpc)
    case Err(m) => Err(m)
    case Ok(history) => ApplySyncSpec(account, history, guessTs)
  }

  method SyncAccount(account: Account, fromScratch: bool, rpc: (Address, nat) -> Result<HistoryResult>,
                     guessTs: nat -> int) returns (r: Result<Account>)
    ensures r == Synced(account, fromScratch, rpc, guessTs)
  {
    var res := FetchSync(account, fromScratch, rpc);
    if res.Err? {
      return Err(res.msg);
    }
    r := ApplySync(account, res.value, guessTs);
  }

  /** The module state of sync.ts together with the network state it updates
      and the account manager it reads and writes. */
  class Scheduler {
    var lastSyncS: real
    var lastPushNotificationS: real
    var status: NetStatus
    var syncAttemptsFailed: nat
    const manager: AccountManager

    predicate Valid()
      reads manager`listeners
    {
      manager.Valid()
    }

    constructor(manager: AccountManager)
      requires manager.Valid()
      ensures Valid() && this.manager == manager
      ensures lastSyncS == 0.0 && lastPushNotificationS == 0.0 && status == Online && syncAttemptsFailed == 0
    {
      this.manager := manager;
      lastSyncS := 0.0;
      lastPushNotificationS := 0.0;
      status := Online;
      syncAttemptsFailed := 0;
    }

    /** `syncAfterPushNotification`. */
    method SyncAfterPushNotification(now: real)
      modifies this
      ensures lastPushNotificationS == now
      ensures lastSyncS == old(lastSyncS) && status == old(status) && syncAttemptsFailed == old(syncAttemptsFailed)
    {
      lastPushNotificationS := now;
    }

    /** `resync`: `Err` when there is no account (the assertion is outside
        the try); otherwise `Ok(true)` after saving the synced account, or
        `Ok(false)` after counting a failure. */
    method Resync(reason: string, fromScratch: bool, now: real,
                  rpc: (Address, nat) -> Result<HistoryResult>, guessTs: nat -> int) returns (r: Result<bool>)
      requires Valid()
      modifies this`lastSyncS, this`syncAttemptsFailed, this`status
      modifies manager`currentAccount, manager`stored, manager`trace
      ensures Valid()
      ensures r.Err? <==> old(manager.currentAccount).None?
      ensures r.Err? ==>
        && r.msg == "no account, skipping sync: " + reason
        && unchanged(this) && unchanged(manager)
      ensures r.Ok? ==> lastSyncS == now
      ensures r.Ok? ==> (r.value <==> Synced(old(manager.currentAccount).value, fromScratch, rpc, guessTs).Ok?)
      ensures r.Ok? && r.value ==>
        && manager.currentAccount == Some(Synced(old(manager.currentAccount).value, fromScratch, rpc, guessTs).value)
        && status == old(status) && syncAttemptsFailed == old(syncAttemptsFailed)
      ensures r.Ok? && !r.value ==>
        && syncAttemptsFailed == old(syncAttemptsFailed) + 1
        && status == StatusAfterFailures(syncAttemptsFailed)
        && unchanged(manager)
    {
      var accOld := manager.currentAccount;
      if accOld.None? {
        return Err("no account, skipping sync: " + reason);
      }
      lastSyncS := now;
      var accNew := SyncAccount(accOld.value, fromScratch, rpc, guessTs);
      if accNew.Ok? {
        manager.SetCurrentAccount(Some(accNew.value));
        return Ok(true);
      }
      syncAttemptsFailed := syncAttemptsFailed + 1;
      status := StatusAfterFailures(syncAttemptsFailed);
      return Ok(false);
    }

    /** `maybeSync`: `None` when there is no account (the source returns
        nothing), `Some(false)` when the tick is skipped, otherwise what
        `resync` returns. */
    method MaybeSync(fromScratch: bool, now: real,
                     rpc: (Address, nat) -> Result<HistoryResult>, guessTs: nat -> int) returns (r: Option<bool>)
      requires Valid()
      modifies this, manager
      ensures Valid()
      ensures old(manager.currentAccount).None? ==> r.None? && unchanged(this) && unchanged(manager)
      ensures old(manager.currentAccount).Some? ==> r.Some?
      ensures old(manager.currentAccount).Some? &&
        Decide(fromScratch, now, old(lastPushNotificationS), old(lastSyncS),
               SyncInterval(old(manager.currentAccount).value, old(status), old(syncAttemptsFailed))) == Skip
        ==> r == Some(false) && unchanged(this) && unchanged(manager)
      ensures old(manager.currentAccount).Some? &&
        Decide(fromScratch, now, old(lastPushNotificationS), old(lastSyncS),
               SyncInterval(old(manager.currentAccount).value, old(status), old(syncAttemptsFailed))) != Skip
        ==> var s := Synced(old(manager.currentAccount).value, fromScratch, rpc, guessTs);
          && r == Some(s.Ok?)
          && lastSyncS == now && lastPushNotificationS == old(lastPushNotificationS)
          && (s.Ok? ==>
                && manager.currentAccount == Some(s.value)
                && status == old(status) && syncAttemptsFailed == old(syncAttemptsFailed))
          && (s.Err? ==>
                && syncAttemptsFailed == old(syncAttemptsFailed) + 1
                && status == StatusAfterFailures(syncAttemptsFailed)
                && unchanged(manager))
    {
      if manager.currentAccount.None? {
        return None;
      }
      var account := manager.currentAccount.value;
      var interval := SyncInterval(account, status, syncAttemptsFailed);
      var res: Result<bool>;
      match Decide(fromScratch, now, lastPushNotificationS, lastSyncS, interval) {
        case FromScratch =>
          res := Resync("initial sync from scratch", true, now, rpc, guessTs);
        case AfterPush =>
          res := Resync("push notification", false, now, rpc, guessTs);
        case Skip =>
          return Some(false);
        case OnInterval =>
          res := Resync("interval", false, now, rpc, guessTs);
      }
      return Some(res.value);
    }

    /** The first sync of `startSync`: if it does not succeed (including when
        there is no account, where `maybeSync` returns nothing) the app is
        marked offline with three failures. */
    method StartSync(now: real, rpc: (Address, nat) -> Result<HistoryResult>, guessTs: nat -> int)
      returns (success: Option<bool>)
      requires Valid()
      modifies this, manager
      ensures Valid()
      ensures old(manager.currentAccount).None? ==> success.None?
      ensures success != Some(true) ==> status == Offline && syncAttemptsFailed == 3
      ensures old(manager.currentAccount).None? ==> unchanged(manager) && lastSyncS == old(lastSyncS)
      ensures old(manager.currentAccount).Some? ==>
        var s := Synced(old(manager.currentAccount).value, true, rpc, guessTs);
        && success == Some(s.Ok?)
        && lastSyncS == now && lastPushNotificationS == old(lastPushNotificationS)
        && (s.Ok? ==>
              && manager.currentAccount == Some(s.value)
              && status == old(status) && syncAttemptsFailed == old(syncAttemptsFailed))
        && (s.Err? ==> unchanged(manager))
    {
      success := MaybeSync(true, now, rpc, guessTs);
      if success != Some(true) {
        status := Offline;
        syncAttemptsFailed := 3;
      }
    }
  }

  /** The network state after `n` failed syncs in a row, each counted the
      way `resync`'s catch block counts it. */
  function FailRun(status: NetStatus, failed: nat, n: nat): (NetStatus, nat)
  {
    if n == 0 then (status, failed)
    else
      var before := FailRun(status, failed, n - 1);
      (StatusAfterFailures(before.1 + 1), before.1 + 1)
  }

  /** After `n > 0` failures the counter has grown by `n` and the status
      depends on the counter alone. */
  lemma {:induction false} FailRunState(status: NetStatus, failed: nat, n: nat)
    ensures FailRun(status, failed, n).1 == failed + n
    ensures n > 0 ==> FailRun(status, failed, n).0 == StatusAfterFailures(failed + n)
  {
    if n > 0 {
      FailRunState(status, failed, n - 1);
    }
  }

  /** From a clean state, failed syncs in a row show the offline banner from
      the fourth one on, and not before. */
  lemma OfflineAfterFourFailures(n: nat)
    ensures FailRun(Online, 0, n).0 == Offline <==> n > 3
  {
    FailRunState(Online, 0, n);
  }

  /** After `startSync`'s failed first sync (offline with three failures),
      every further failure keeps the banner up. */
  lemma OfflineStaysAfterStart(n: nat)
    ensures FailRun(Offline, 3, n).0 == Offline
  {
    FailRunState(Offline, 3, n);
  }
}
