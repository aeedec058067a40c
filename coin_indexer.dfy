/** The server's stablecoin transfer index
    (packages/daimo-api/src/contract/coinIndexer.ts): an append-only log of
    token transfers with listener fan-out, the per-address query, and the
    per-operation fee that pairs each user transfer with its paymaster legs.
    The database query, the user-op index and the chain's block clock are
    outside the model: loaded rows are method inputs and the lookups are
    function parameters. */
module CoinIndexer {
  import opened Errors
  import opened Common

  /** A row of the `transfers` table, with byte fields as numbers. */
  datatype TransferRow = TransferRow(
    blockNum: nat, blockHash: Hex, txHash: Hex, txIdx: nat, logIdx: nat,
    logAddr: nat, f: nat, t: nat, v: int)

  /** A token transfer log. */
  datatype TransferLog = TransferLog(
    address: Address,
    blockNumber: nat,
    blockHash: Hex,
    transactionHash: Hex,
    transactionIndex: nat,
    logIndex: nat,
    from: Address,
    to: Address,
    value: int)

  /** The conversion of a loaded row: every address is checksummed. */
  function RowToTransfer(row: TransferRow): (log: TransferLog)
    ensures log.from.id == row.f && log.to.id == row.t && log.address.id == row.logAddr
    ensures log.from.checksummed && log.to.checksummed && log.address.checksummed
    ensures log.blockNumber == row.blockNum && log.logIndex == row.logIdx && log.value == row.v
  {
    TransferLog(GetAddress(LowerHex(row.logAddr)), row.blockNum, row.blockHash, row.txHash,
             row.txIdx, row.logIdx, GetAddress(LowerHex(row.f)), GetAddress(LowerHex(row.t)), row.v)
  }

  /** The user op that emitted a log, as the op index reports it. */
  datatype UserOpLog = UserOpLog(hash: Hex, nonce: nat)

  /** The collaborators `filterTransfers` consults: the op index lookup by
      (tx hash, log index), the nonce-metadata decoding, the block-number to
      timestamp guess, and the paymaster address. */
  datatype Env = Env(
    fetchUserOpLog: (Hex, nat) -> Option<UserOpLog>,
    nonceMetadata: nat -> Option<Hex>,
    guessTimestamp: nat -> int,
    paymaster: Address)

  // ---------------------------------------------------------------------
  // The index

  class CoinIndexer {
    var allTransfers: seq<TransferLog>
    var listeners: seq<ListenerId>
    /** Every listener call made so far, oldest first. */
    var delivered: seq<Call<seq<TransferLog>>>

    constructor()
      ensures allTransfers == [] && listeners == [] && delivered == []
    {
      allTransfers := [];
      listeners := [];
      delivered := [];
    }

    /** `load`: appends the batch and hands exactly that batch to each listener. */
    method Load(rows: seq<TransferRow>) returns (logs: seq<TransferLog>)
      modifies this
      ensures logs == Map(rows, RowToTransfer)
      ensures allTransfers == old(allTransfers) + logs
      ensures listeners == old(listeners)
      ensures delivered == old(delivered) + Calls(listeners, logs)
    {
      logs := Map(rows, RowToTransfer);
      allTransfers := allTransfers + logs;
      Notify(logs);
    }

    /** The `forEach` over the listeners. */
    method Notify(logs: seq<TransferLog>)
      modifies this`delivered
      ensures delivered == old(delivered) + Calls(listeners, logs)
    {
      var i := 0;
      while i < |listeners|
        invariant 0 <= i <= |listeners|
        invariant delivered == old(delivered) + Calls(listeners[..i], logs)
      {
        assert listeners[..i + 1][..i] == listeners[..i];
        delivered := delivered + [Call(listeners[i], logs)];
        i := i + 1;
      }
      assert listeners[..i] == listeners;
    }

    /** `pipeAllTransfers`: everything so far first, then every later batch. */
    method PipeAllTransfers(listener: ListenerId)
      modifies this
      ensures delivered == old(delivered) + [Call(listener, allTransfers)]
      ensures listeners == old(listeners) + [listener]
      ensures allTransfers == old(allTransfers)
    {
      delivered := delivered + [Call(listener, allTransfers)];
      AddListener(listener);
    }

    /** `addListener`: an array push, so a listener added twice is called twice. */
    method AddListener(listener: ListenerId)
      modifies this`listeners
      ensures listeners == old(listeners) + [listener]
    {
      listeners := listeners + [listener];
    }

    /** `removeListener`: drops every registration of `listener` and keeps the
        others, in order. */
    method RemoveListener(listener: ListenerId)
      modifies this`listeners
      ensures listeners == Without(old(listeners), listener)
      ensures listener !in listeners
      ensures forall y :: y != listener ==> multiset(listeners)[y] == multiset(old(listeners))[y]
    {
      listeners := Without(listeners, listener);
      WithoutCounts(old(listeners), listener);
    }

    /** `filterTransfers`. */
    method FilterTransfers(env: Env, addr: Address, sinceBlockNum: Option<nat>, txHashes: Option<seq<Hex>>)
      returns (r: seq<OpEvent>)
      ensures r == WithFees(Map(Relevant(allTransfers, addr, sinceBlockNum, txHashes),
                                ToOpFn(env)), env.paymaster)
    {
      var relevant := Relevant(allTransfers, addr, sinceBlockNum, txHashes);
      var ops := Map(relevant, ToOpFn(env));
      r := AttachFeeAmounts(ops, env.paymaster);
    }
  }

  /** `listeners.filter((l) => l !== listener)`. */
  function Without(listeners: seq<ListenerId>, listener: ListenerId): (r: seq<ListenerId>)
    ensures |r| <= |listeners|
  {
    Filter(listeners, OtherThan(listener))
  }

  function OtherThan(listener: ListenerId): ListenerId -> bool
  {
    (l: ListenerId) => l != listener
  }

  /** Removing a listener leaves no registration of it and the same number of
      registrations of every other one. */
  lemma {:induction false} WithoutCounts(listeners: seq<ListenerId>, listener: ListenerId)
    ensures multiset(Without(listeners, listener))[listener] == 0
    ensures forall y :: y != listener ==> multiset(Without(listeners, listener))[y] == multiset(listeners)[y]
  {
    if listeners != [] {
      var rest := listeners[1..];
      WithoutCounts(rest, listener);
      var head := if listeners[0] != listener then [listeners[0]] else [];
      assert Without(listeners, listener) == head + Without(rest, listener);
      assert multiset(Without(listeners, listener)) == multiset(head) + multiset(Without(rest, listener));
      assert listeners == [listeners[0]] + rest;
      assert multiset(listeners) == multiset([listeners[0]]) + multiset(rest);
    }
  }

  /** A removed listener receives nothing from later loads. */
  lemma RemovedNotCalled(listeners: seq<ListenerId>, listener: ListenerId, logs: seq<TransferLog>)
    ensures forall i :: 0 <= i < |Calls(Without(listeners, listener), logs)| ==>
      Calls(Without(listeners, listener), logs)[i].listener != listener
  {
    WithoutCounts(listeners, listener);
  }

  // ---------------------------------------------------------------------
  // Querying

  /** The log moves coins from or to `addr`. */
  predicate Touches(log: TransferLog, addr: Address)
  {
    SameText(log.from, addr) || SameText(log.to, addr)
  }

  /** At or after `sinceBlockNum` when it is given and non-zero (zero is
      falsy). */
  predicate AfterSince(log: TransferLog, sinceBlockNum: Option<nat>)
  {
    sinceBlockNum.None? || sinceBlockNum.value == 0 || log.blockNumber >= sinceBlockNum.value
  }

  /** Among `txHashes` when they are given (an empty hash is looked up as
      "0x"). */
  predicate HashListed(log: TransferLog, txHashes: Option<seq<Hex>>)
  {
    txHashes.None? || (if log.transactionHash == "" then "0x" else log.transactionHash) in txHashes.value
  }

  /** Whether a log falls in the query window. */
  predicate InWindow(log: TransferLog, sinceBlockNum: Option<nat>, txHashes: Option<seq<Hex>>)
  {
    AfterSince(log, sinceBlockNum) && HashListed(log, txHashes)
  }

  function TouchesFn(addr: Address): TransferLog -> bool
  {
    (log: TransferLog) => Touches(log, addr)
  }

  function AfterFn(sinceBlockNum: nat): TransferLog -> bool
  {
    (log: TransferLog) => log.blockNumber >= sinceBlockNum
  }

  function ListedFn(txHashes: seq<Hex>): TransferLog -> bool
  {
    (log: TransferLog) => (if log.transactionHash == "" then "0x" else log.transactionHash) in txHashes
  }

  /** The first filter: logs from or to `addr`. */
  function TouchingLogs(all: seq<TransferLog>, addr: Address): (r: seq<TransferLog>)
    ensures |r| <= |all|
    ensures forall x :: x in r <==> x in all && Touches(x, addr)
  {
    var r := Filter(all, TouchesFn(addr));
    assert forall x :: x in all && Touches(x, addr) ==> x in r by {
      forall x | x in all && Touches(x, addr) ensures x in r {
        var i :| 0 <= i < |all| && all[i] == x;
      }
    }
    assert forall x :: x in r ==> x in all && Touches(x, addr) by {
      forall x | x in r ensures x in all && Touches(x, addr) {
        var i :| 0 <= i < |r| && r[i] == x;
      }
    }
    r
  }

  /** The second filter, skipped when `sinceBlockNum` is missing or zero. */
  function SinceLogs(s: seq<TransferLog>, sinceBlockNum: Option<nat>): (r: seq<TransferLog>)
    ensures |r| <= |s|
    ensures forall x :: x in r <==> x in s && AfterSince(x, sinceBlockNum)
  {
    if sinceBlockNum.None? || sinceBlockNum.value == 0 then s
    else
      var r := Filter(s, AfterFn(sinceBlockNum.value));
      assert forall x :: x in s && AfterSince(x, sinceBlockNum) ==> x in r by {
        forall x | x in s && AfterSince(x, sinceBlockNum) ensures x in r {
          var i :| 0 <= i < |s| && s[i] == x;
        }
      }
      assert forall x :: x in r ==> x in s && AfterSince(x, sinceBlockNum) by {
        forall x | x in r ensures x in s && AfterSince(x, sinceBlockNum) {
          var i :| 0 <= i < |r| && r[i] == x;
        }
      }
      r
  }

  /** The third filter, skipped when `txHashes` is missing. */
  function HashLogs(s: seq<TransferLog>, txHashes: Option<seq<Hex>>): (r: seq<TransferLog>)
    ensures |r| <= |s|
    ensures forall x :: x in r <==> x in s && HashListed(x, txHashes)
  {
    if txHashes.None? then s
    else
      var r := Filter(s, ListedFn(txHashes.value));
      assert forall x :: x in s && HashListed(x, txHashes) ==> x in r by {
        forall x | x in s && HashListed(x, txHashes) ensures x in r {
          var i :| 0 <= i < |s| && s[i] == x;
        }
      }
      assert forall x :: x in r ==> x in s && HashListed(x, txHashes) by {
        forall x | x in r ensures x in s && HashListed(x, txHashes) {
          var i :| 0 <= i < |r| && r[i] == x;
        }
      }
      r
  }

  /** The three filters of `filterTransfers`, in order. */
  function Relevant(all: seq<TransferLog>, addr: Address, sinceBlockNum: Option<nat>, txHashes: Option<seq<Hex>>)
    : (r: seq<TransferLog>)
    ensures |r| <= |all|
    ensures forall i :: 0 <= i < |r| ==>
      && r[i] in all
      && (SameText(r[i].from, addr) || SameText(r[i].to, addr))
      && InWindow(r[i], sinceBlockNum, txHashes)
    ensures forall i :: 0 <= i < |all| ==>
      (SameText(all[i].from, addr) || SameText(all[i].to, addr)) && InWindow(all[i], sinceBlockNum, txHashes) ==> all[i] in r
  {
    HashLogs(SinceLogs(TouchingLogs(all, addr), sinceBlockNum), txHashes)
  }

  /** `attachTransferOpProperties`: a confirmed transfer event with the log's
      chain coordinates and the op hash and nonce metadata of the user op
      that emitted it, if any. */
  function ToOpEvent(env: Env, log: TransferLog): (op: OpEvent)
    ensures op.opType == Transfer && op.status == Confirmed
    ensures op.from == log.from && op.to == log.to && op.amount == log.value
    ensures op.blockNumber == Some(log.blockNumber) && op.txHash == Some(log.transactionHash)
    ensures op.logIndex == Some(log.logIndex) && op.blockHash == Some(log.blockHash)
    ensures op.feeAmount.None?
    ensures op.opHash.Some? <==> env.fetchUserOpLog(log.transactionHash, log.logIndex).Some?
    ensures op.opHash.Some? ==> op.opHash.value == env.fetchUserOpLog(log.transactionHash, log.logIndex).value.hash
    ensures op.timestamp == env.guessTimestamp(log.blockNumber)
  {
    var userOp := env.fetchUserOpLog(log.transactionHash, log.logIndex);
    OpEvent(Transfer, Confirmed, log.from, log.to, log.value, None,
            if userOp.Some? then env.nonceMetadata(userOp.value.nonce) else None,
            env.guessTimestamp(log.blockNumber),
            Some(log.transactionHash), Some(log.blockNumber), Some(log.blockHash), Some(log.logIndex),
            if userOp.Some? then Some(userOp.value.hash) else None)
  }

  function ToOpFn(env: Env): TransferLog -> OpEvent
  {
    (log: TransferLog) => ToOpEvent(env, log)
  }

  /** A confirmed transfer event from or to `addr` with a block number in the
      window. */
  predicate InQuery(op: OpEvent, addr: Address, sinceBlockNum: Option<nat>)
  {
    && (SameText(op.from, addr) || SameText(op.to, addr))
    && op.opType == Transfer && op.status == Confirmed
    && op.blockNumber.Some?
    && (sinceBlockNum.Some? && sinceBlockNum.value > 0 ==> op.blockNumber.value >= sinceBlockNum.value)
  }

  /** Every event `filterTransfers` returns is a confirmed transfer from or
      to `addr`, inside the block window, not a paymaster leg, and there are
      no more events than logs. */
  lemma FilterTransfersShape(env: Env, all: seq<TransferLog>, addr: Address,
                             sinceBlockNum: Option<nat>, txHashes: Option<seq<Hex>>)
    ensures var r := WithFees(Map(Relevant(all, addr, sinceBlockNum, txHashes), ToOpFn(env)), env.paymaster);
      && |r| <= |all|
      && forall i :: 0 <= i < |r| ==> InQuery(r[i], addr, sinceBlockNum) && NotPaymasterLeg(r[i], env.paymaster)
  {
    var rel := Relevant(all, addr, sinceBlockNum, txHashes);
    var ops := Map(rel, ToOpFn(env));
    OpsInQuery(env, rel, addr, sinceBlockNum, txHashes);
    StrippedInQuery(ops, addr, sinceBlockNum);
    var r := WithFees(ops, env.paymaster);
    forall i | 0 <= i < |r|
      ensures InQuery(r[i], addr, sinceBlockNum)
    {
      assert InQuery(r[i].(feeAmount := None), addr, sinceBlockNum);
    }
  }

  /** Every log from or to `addr` in the window whose event is not a
      paymaster leg is returned, with its op's net fee. */
  lemma FilterTransfersComplete(env: Env, all: seq<TransferLog>, addr: Address,
                                sinceBlockNum: Option<nat>, txHashes: Option<seq<Hex>>)
    ensures var ops := Map(Relevant(all, addr, sinceBlockNum, txHashes), ToOpFn(env));
      forall i :: 0 <= i < |all| && Touches(all[i], addr) && InWindow(all[i], sinceBlockNum, txHashes)
                  && NotPaymasterLeg(ToOpEvent(env, all[i]), env.paymaster) ==>
        ToOpEvent(env, all[i]).(feeAmount := Some(FeeFor(ops, ToOpEvent(env, all[i]).opHash, env.paymaster)))
          in WithFees(ops, env.paymaster)
  {
    var rel := Relevant(all, addr, sinceBlockNum, txHashes);
    var ops := Map(rel, ToOpFn(env));
    WithFeesComplete(ops, env.paymaster);
    forall i | 0 <= i < |all| && Touches(all[i], addr) && InWindow(all[i], sinceBlockNum, txHashes)
                && NotPaymasterLeg(ToOpEvent(env, all[i]), env.paymaster)
      ensures ToOpEvent(env, all[i]).(feeAmount := Some(FeeFor(ops, ToOpEvent(env, all[i]).opHash, env.paymaster)))
                in WithFees(ops, env.paymaster)
    {
      var k :| 0 <= k < |rel| && rel[k] == all[i];
      assert ops[k] == ToOpEvent(env, all[i]);
    }
  }

  /** Clearing the fee keeps an event in the query. */
  lemma StrippedInQuery(ops: seq<OpEvent>, addr: Address, sinceBlockNum: Option<nat>)
    requires forall j :: 0 <= j < |ops| ==> InQuery(ops[j], addr, sinceBlockNum)
    ensures forall x :: x in Map(ops, StripFee()) ==> InQuery(x, addr, sinceBlockNum)
  {
    var stripped := Map(ops, StripFee());
    forall x | x in stripped
      ensures InQuery(x, addr, sinceBlockNum)
    {
      var j :| 0 <= j < |stripped| && stripped[j] == x;
      assert x == ops[j].(feeAmount := None);
    }
  }

  lemma OpsInQuery(env: Env, rel: seq<TransferLog>, addr: Address,
                   sinceBlockNum: Option<nat>, txHashes: Option<seq<Hex>>)
    requires forall i :: 0 <= i < |rel| ==> Touches(rel[i], addr) && InWindow(rel[i], sinceBlockNum, txHashes)
    ensures forall j :: 0 <= j < |rel| ==> InQuery(Map(rel, ToOpFn(env))[j], addr, sinceBlockNum)
  {
    forall j | 0 <= j < |rel|
      ensures InQuery(Map(rel, ToOpFn(env))[j], addr, sinceBlockNum)
    {
      assert Map(rel, ToOpFn(env))[j] == ToOpEvent(env, rel[j]);
    }
  }

  // ---------------------------------------------------------------------
  // Fees

  /** What one event adds to the fee of its op: the amount when it pays the
      paymaster, minus the amount when the paymaster refunds. */
  function FeeLeg(op: OpEvent, paymaster: Address): int
  {
    if SameText(op.to, paymaster) then op.amount
    else if SameText(op.from, paymaster) then -op.amount
    else 0
  }

  /** The net fee of the op with hash `h` over `ops`: paid to the paymaster
      minus refunded by it, counting only events carrying that op hash. */
  function NetFee(ops: seq<OpEvent>, h: Hex, paymaster: Address): (r: int)
    ensures (forall i :: 0 <= i < |ops| && ops[i].opHash == Some(h) ==> !SameText(ops[i].from, paymaster) && ops[i].amount >= 0)
            ==> r >= 0
  {
    if ops == [] then 0
    else
      var last := ops[|ops| - 1];
      NetFee(ops[..|ops| - 1], h, paymaster) + (if last.opHash == Some(h) then FeeLeg(last, paymaster) else 0)
  }

  /** The fee attached to an event: zero when it has no op hash. */
  function FeeFor(ops: seq<OpEvent>, opHash: Option<Hex>, paymaster: Address): (r: int)
    ensures opHash.None? ==> r == 0
    ensures (forall i :: 0 <= i < |ops| ==> ops[i].opHash != opHash) ==> r == 0
  {
    if opHash.None? then 0
    else
      assert (forall i :: 0 <= i < |ops| ==> ops[i].opHash != opHash) ==> NetFee(ops, opHash.value, paymaster) == 0 by {
        if forall i :: 0 <= i < |ops| ==> ops[i].opHash != opHash {
          NetFeeOthers(ops, opHash.value, paymaster);
        }
      }
      NetFee(ops, opHash.value, paymaster)
  }

  function StripFee(): OpEvent -> OpEvent
  {
    (op: OpEvent) => op.(feeAmount := None)
  }

  predicate NotPaymasterLeg(op: OpEvent, paymaster: Address)
  {
    !SameText(op.from, paymaster) && !SameText(op.to, paymaster)
  }

  function NonPaymaster(paymaster: Address): OpEvent -> bool
  {
    (op: OpEvent) => NotPaymasterLeg(op, paymaster)
  }

  /** What `attachFeeAmounts` returns: the events that do not involve the
      paymaster, in order, each with its op's net fee. */
  function WithFees(ops: seq<OpEvent>, paymaster: Address): (r: seq<OpEvent>)
    ensures |r| <= |ops|
    ensures forall i :: 0 <= i < |r| ==> NotPaymasterLeg(r[i], paymaster)
    ensures forall i :: 0 <= i < |r| ==>
      r[i].feeAmount == Some(FeeFor(ops, r[i].opHash, paymaster))
      && r[i].(feeAmount := None) in Map(ops, StripFee())
    ensures Map(r, StripFee()) == Map(Filter(ops, NonPaymaster(paymaster)), StripFee())
  {
    var kept := Filter(ops, NonPaymaster(paymaster));
    var r := Map(kept, (op: OpEvent) => op.(feeAmount := Some(FeeFor(ops, op.opHash, paymaster))));
    assert forall i :: 0 <= i < |r| ==> r[i].(feeAmount := None) == kept[i].(feeAmount := None);
    forall i | 0 <= i < |r|
      ensures r[i].(feeAmount := None) in Map(ops, StripFee())
    {
      var j :| 0 <= j < |ops| && ops[j] == kept[i];
      assert Map(ops, StripFee())[j] == r[i].(feeAmount := None);
    }
    r
  }

  /** No event outside the paymaster's legs is lost: each comes out with its
      op's net fee attached. */
  lemma WithFeesComplete(ops: seq<OpEvent>, paymaster: Address)
    ensures forall i :: 0 <= i < |ops| && NotPaymasterLeg(ops[i], paymaster) ==>
      ops[i].(feeAmount := Some(FeeFor(ops, ops[i].opHash, paymaster))) in WithFees(ops, paymaster)
  {
    var kept := Filter(ops, NonPaymaster(paymaster));
    var r := WithFees(ops, paymaster);
    forall i | 0 <= i < |ops| && NotPaymasterLeg(ops[i], paymaster)
      ensures ops[i].(feeAmount := Some(FeeFor(ops, ops[i].opHash, paymaster))) in r
    {
      assert NonPaymaster(paymaster)(ops[i]);
      var k :| 0 <= k < |kept| && kept[k] == ops[i];
      assert r[k] == kept[k].(feeAmount := Some(FeeFor(ops, kept[k].opHash, paymaster)));
    }
  }

  /** `opHashToFee.get(h) || 0`. */
  function Lookup(m: map<Hex, int>, h: Hex): int
  {
    if h in m then m[h] else 0
  }

  /** `attachFeeAmounts`: a pass that totals the fee of each op hash in a
      map, then the filter and map over the events. */
  method AttachFeeAmounts(ops: seq<OpEvent>, paymaster: Address) returns (r: seq<OpEvent>)
    ensures r == WithFees(ops, paymaster)
  {
    var fees: map<Hex, int> := map[];
    for i := 0 to |ops|
      invariant forall h :: Lookup(fees, h) == NetFee(ops[..i], h, paymaster)
    {
      assert ops[..i + 1][..i] == ops[..i];
      var op := ops[i];
      if op.opHash.None? {
        continue;
      }
      var h := op.opHash.value;
      var prevFee := Lookup(fees, h);
      if SameText(op.to, paymaster) {
        fees := fees[h := prevFee + op.amount];
      } else if SameText(op.from, paymaster) {
        fees := fees[h := prevFee - op.amount];
      }
    }
    assert ops[..|ops|] == ops;
    var kept := Filter(ops, NonPaymaster(paymaster));
    r := Map(kept, (op: OpEvent) => op.(feeAmount := Some(if op.opHash.None? then 0 else Lookup(fees, op.opHash.value))));
    assert forall i :: 0 <= i < |kept| ==>
      (if kept[i].opHash.None? then 0 else Lookup(fees, kept[i].opHash.value)) == FeeFor(ops, kept[i].opHash, paymaster);
  }

  /** Fees add up over consecutive batches of events. */
  lemma {:induction false} NetFeeConcat(a: seq<OpEvent>, b: seq<OpEvent>, h: Hex, paymaster: Address)
    ensures NetFee(a + b, h, paymaster) == NetFee(a, h, paymaster) + NetFee(b, h, paymaster)
  {
    if b == [] {
      assert a + b == a;
    } else {
      var b' := b[..|b| - 1];
      assert (a + b)[..|a + b| - 1] == a + b';
      NetFeeConcat(a, b', h, paymaster);
    }
  }

  /** Events of other ops and events without an op hash leave a fee as it is. */
  lemma {:induction false} NetFeeOthers(ops: seq<OpEvent>, h: Hex, paymaster: Address)
    requires forall i :: 0 <= i < |ops| ==> ops[i].opHash != Some(h)
    ensures NetFee(ops, h, paymaster) == 0
  {
    if ops != [] {
      NetFeeOthers(ops[..|ops| - 1], h, paymaster);
    }
  }

  /** A user transfer paid for by a fee leg and partly refunded carries the
      fee less the refund. */
  lemma FeeOfSponsoredTransfer(transfer: OpEvent, fee: OpEvent, refund: OpEvent, paymaster: Address)
    requires transfer.opHash.Some? && fee.opHash == transfer.opHash && refund.opHash == transfer.opHash
    requires NotPaymasterLeg(transfer, paymaster)
    requires SameText(fee.to, paymaster) && !SameText(refund.to, paymaster) && SameText(refund.from, paymaster)
    ensures WithFees([transfer, fee, refund], paymaster)
         == [transfer.(feeAmount := Some(fee.amount - refund.amount))]
  {
    var ops := [transfer, fee, refund];
    var h := transfer.opHash.value;
    assert ops[..2] == [transfer, fee];
    assert [transfer, fee][..1] == [transfer];
    assert [transfer][..0] == [];
    assert NetFee([transfer], h, paymaster) == 0;
    assert NetFee([transfer, fee], h, paymaster) == fee.amount;
    var keep := (op: OpEvent) => NotPaymasterLeg(op, paymaster);
    assert ops[1..] == [fee, refund] && [fee, refund][1..] == [refund] && [refund][1..] == [];
    assert !keep(refund) && !keep(fee) && keep(transfer);
    assert Filter([refund], keep) == [];
    assert Filter([fee, refund], keep) == [];
    assert Filter(ops, keep) == [transfer];
    assert NetFee(ops, transfer.opHash.value, paymaster) == fee.amount - refund.amount;
  }
}
