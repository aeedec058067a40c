/** Push message derivation (packages/daimo-api/src/server/pushNotifier.ts):
    the server keeps the Expo push tokens of each address and turns transfers,
    payment-link updates and device-key changes into messages for the
    addresses involved. Sending the messages, the token database and the
    lookups (names, nonce metadata, slot labels, dollar formatting) are
    outside the model: messages are returned, rows are inputs and the
    lookups are function parameters. */
module PushNotifier {
  import opened Errors
  import opened Common
  import NoteIndexer

  /** The key of the token map: the text of an address. */
  type Key = (nat, bool)

  /** An Expo push message. `badge` and `txHash` (the `data` field) are
      absent on some messages. */
  datatype Message = Message(to: seq<string>, badge: Option<nat>, title: string, body: string, txHash: Option<Hex>)

  /** The collaborators the notifier consults. `formatDollars(n)` is the
      two-decimal text of `n` token units; `isRequestResponse(m)` says that
      nonce metadata `m` decodes to a request-response nonce. */
  datatype Env = Env(
    getEAccount: Address -> EAccount,
    accountName: EAccount -> string,
    formatDollars: nat -> string,
    tokenSymbol: string,
    fetchNonceMetadata: (Hex, nat) -> Option<Hex>,
    isRequestResponse: Hex -> bool,
    slotLabel: nat -> string,
    isDeploymentLog: KeyChange -> bool)

  /** A coin transfer as the notifier receives it; any field may be null. */
  datatype TransferLog = TransferLog(
    from: Option<Address>, to: Option<Address>, value: int, transactionHash: Option<Hex>, logIndex: nat)

  /** A payment-link status as the note index reports it. */
  datatype NoteOp = NoteOp(status: NoteIndexer.NoteState, dollars: string, sender: EAccount, claimer: Option<EAccount>)

  datatype KeyChangeKind = Added | Removed

  /** A device-key change of an account. */
  datatype KeyChange = KeyChange(change: KeyChangeKind, address: Address, keySlot: nat, transactionHash: Hex)

  function Abs(v: int): nat
  {
    if v < 0 then -v else v
  }

  // ---------------------------------------------------------------------
  // The token registry

  /** Every registered address holds at least one token, and no token twice. */
  ghost predicate TokensValid(tokens: map<Key, seq<string>>)
  {
    forall k :: k in tokens ==> tokens[k] != [] && Distinct(tokens[k])
  }

  /** `cachePushToken`: append the token to the address's list unless it is
      already there. */
  function Cached(tokens: map<Key, seq<string>>, addr: Address, token: string): (r: map<Key, seq<string>>)
    ensures AddrText(addr) in r && token in r[AddrText(addr)]
    ensures forall k :: k != AddrText(addr) ==> MapGet(r, k) == MapGet(tokens, k)
    ensures token in MapGet(tokens, AddrText(addr)).GetOr([]) ==> r == tokens
    ensures token !in MapGet(tokens, AddrText(addr)).GetOr([]) ==>
      r[AddrText(addr)] == MapGet(tokens, AddrText(addr)).GetOr([]) + [token]
  {
    var k := AddrText(addr);
    var old_ := if k in tokens then tokens[k] else [];
    if token in old_ then tokens else tokens[k := old_ + [token]]
  }

  /** The registry stays free of duplicates, and caching a token twice is
      the same as caching it once. */
  lemma CachedValid(tokens: map<Key, seq<string>>, addr: Address, token: string)
    requires TokensValid(tokens)
    ensures TokensValid(Cached(tokens, addr, token))
    ensures Cached(Cached(tokens, addr, token), addr, token) == Cached(tokens, addr, token)
  {
    var k := AddrText(addr);
    if k in tokens && token !in tokens[k] {
      DistinctAppend(tokens[k], token);
    } else if k !in tokens {
      assert Distinct([token]);
    }
  }

  /** An address keeps the tokens it had, in order, and gains the new one at
      the end. */
  lemma CachedAppends(tokens: map<Key, seq<string>>, addr: Address, token: string)
    requires AddrText(addr) in tokens && token !in tokens[AddrText(addr)]
    ensures Cached(tokens, addr, token)[AddrText(addr)] == tokens[AddrText(addr)] + [token]
  {
  }

  /** The rows of the token table, cached in order. */
  function CachedAll(tokens: map<Key, seq<string>>, rows: seq<(Address, string)>): (r: map<Key, seq<string>>)
    ensures forall i :: 0 <= i < |rows| ==> AddrText(GetAddress(rows[i].0)) in r
  {
    if rows == [] then tokens
    else
      var prev := CachedAll(tokens, rows[..|rows| - 1]);
      var last := rows[|rows| - 1];
      assert forall i :: 0 <= i < |rows| - 1 ==> rows[..|rows| - 1][i] == rows[i];
      Cached(prev, GetAddress(last.0), last.1)
  }

  // ---------------------------------------------------------------------
  // Messages

  /** `getPushMessages`: one message to every token of the address, or none
      when the address has no entry. */
  function PushMessages(tokens: map<Key, seq<string>>, to: Address, title: string, body: string): (r: seq<Message>)
    ensures r == [] <==> AddrText(to) !in tokens
    ensures |r| <= 1
    ensures r != [] ==> r[0].to == tokens[AddrText(to)] && r[0].badge == Some(1)
                        && r[0].title == title && r[0].body == body && r[0].txHash.None?
  {
    match MapGet(tokens, AddrText(to))
    case None => []
    case Some(ts) => [Message(ts, Some(1), title, body, None)]
  }

  /** `getPushMessagesFromTransfer`: the message for one side of a transfer.
      `value` is negative for the sender. */
  function TransferSide(tokens: map<Key, seq<string>>, env: Env, txHash: Hex, addr: Address, other: Address,
                        value: int, receivingRequestedMoney: bool): (r: seq<Message>)
    ensures |r| <= 1
    ensures r != [] <==> AddrText(addr) in tokens && tokens[AddrText(addr)] != []
                         && env.getEAccount(other).addrLabel != Some(PaymentLink)
                         && env.getEAccount(other).addrLabel != Some(Paymaster)
    ensures r != [] ==> r[0].to == tokens[AddrText(addr)] && r[0].badge == Some(1) && r[0].txHash == Some(txHash)
    ensures r != [] ==> r[0].title == TransferTitle(value, env.formatDollars(Abs(value)))
    ensures r != [] ==> r[0].body == TransferBody(value, receivingRequestedMoney, env.formatDollars(Abs(value)),
                                                  env.tokenSymbol, env.accountName(env.getEAccount(other)))
  {
    var k := AddrText(addr);
    if k !in tokens || tokens[k] == [] then []
    else
      var dollars := env.formatDollars(Abs(value));
      var otherAcc := env.getEAccount(other);
      if otherAcc.addrLabel == Some(PaymentLink) || otherAcc.addrLabel == Some(Paymaster) then []
      else
        var otherStr := env.accountName(otherAcc);
        [Message(tokens[k], Some(1), TransferTitle(value, dollars),
                 TransferBody(value, receivingRequestedMoney, dollars, env.tokenSymbol, otherStr), Some(txHash))]
  }

  /** "Sent $d" for the paying side, "Received $d" for the other. */
  function TransferTitle(value: int, dollars: string): string
  {
    if value < 0 then "Sent $" + dollars else "Received $" + dollars
  }

  function TransferBody(value: int, receivingRequestedMoney: bool, dollars: string, symbol: string, otherStr: string): string
  {
    if value < 0 then "You sent " + dollars + " " + symbol + " to " + otherStr
    else if receivingRequestedMoney then otherStr + " fulfilled your " + dollars + " " + symbol + " request"
    else "You received " + dollars + " " + symbol + " from " + otherStr
  }

  /** The transfers the notifier ignores: a missing party, a zero amount or
      a transaction not yet mined. */
  predicate Skipped(log: TransferLog)
  {
    log.from.None? || log.to.None? || log.value == 0 || log.transactionHash.None?
  }

  /** Whether the receiver is being paid a request it made. */
  predicate ReceivingRequestedMoney(log: TransferLog, env: Env)
    requires log.transactionHash.Some?
  {
    var meta := env.fetchNonceMetadata(log.transactionHash.value, log.logIndex);
    meta.Some? && env.isRequestResponse(meta.value)
  }

  /** The messages of one transfer that is not skipped: the sender's, then
      the receiver's. */
  function LogMessages(tokens: map<Key, seq<string>>, env: Env, log: TransferLog): seq<Message>
    requires !Skipped(log)
  {
    TransferSide(tokens, env, log.transactionHash.value, log.from.value, log.to.value, -log.value, false)
    + TransferSide(tokens, env, log.transactionHash.value, log.to.value, log.from.value, log.value,
                   ReceivingRequestedMoney(log, env))
  }

  /** The two sides, computed one after the other, make up the transfer's
      messages. */
  lemma LogMessagesSides(tokens: map<Key, seq<string>>, env: Env, log: TransferLog, a: seq<Message>, b: seq<Message>)
    requires !Skipped(log)
    requires a == TransferSide(tokens, env, log.transactionHash.value, log.from.value, log.to.value, -log.value, false)
    requires b == TransferSide(tokens, env, log.transactionHash.value, log.to.value, log.from.value, log.value,
                               ReceivingRequestedMoney(log, env))
    ensures a + b == OneTransferMessages(tokens, env, log)
  {
  }

  /** The messages of one transfer, skipped or not. */
  function OneTransferMessages(tokens: map<Key, seq<string>>, env: Env, log: TransferLog): (r: seq<Message>)
    ensures |r| <= 2
  {
    if Skipped(log) then [] else LogMessages(tokens, env, log)
  }

  function TransferFn(tokens: map<Key, seq<string>>, env: Env): TransferLog -> seq<Message>
  {
    (log: TransferLog) => OneTransferMessages(tokens, env, log)
  }

  /** `getPushMessagesFromTransfers`, as a function of the token map: the
      messages of each transfer in turn (see `FlatMapConcat` for the order). */
  function TransferMessages(tokens: map<Key, seq<string>>, env: Env, logs: seq<TransferLog>): (r: seq<Message>)
    ensures forall k :: 0 <= k < |r| ==> r[k].badge == Some(1) && r[k].txHash.Some?
  {
    FlatMapAll(logs, TransferFn(tokens, env), TransferStamped);
    FlatMap(logs, TransferFn(tokens, env))
  }

  predicate TransferStamped(m: Message)
  {
    m.badge == Some(1) && m.txHash.Some?
  }

  lemma TransferMessagesStep(tokens: map<Key, seq<string>>, env: Env, logs: seq<TransferLog>, i: nat)
    requires i < |logs|
    ensures TransferMessages(tokens, env, logs[..i + 1])
         == TransferMessages(tokens, env, logs[..i]) + OneTransferMessages(tokens, env, logs[i])
  {
    assert logs[..i + 1][..i] == logs[..i];
  }

  /** Each transfer yields at most two messages (one per side). */
  lemma {:induction false} TransferMessagesBound(tokens: map<Key, seq<string>>, env: Env, logs: seq<TransferLog>)
    ensures |TransferMessages(tokens, env, logs)| <= 2 * |logs|
  {
    if logs != [] {
      TransferMessagesBound(tokens, env, logs[..|logs| - 1]);
    }
  }

  /** A skipped transfer yields nothing; any other yields at most the
      sender's message followed by at most the receiver's. */
  lemma OneTransfer(tokens: map<Key, seq<string>>, env: Env, log: TransferLog)
    ensures Skipped(log) ==> TransferMessages(tokens, env, [log]) == []
    ensures !Skipped(log) ==> TransferMessages(tokens, env, [log]) == LogMessages(tokens, env, log)
  {
    assert [log][..0] == [];
    assert FlatMap([log], TransferFn(tokens, env)) == FlatMap([], TransferFn(tokens, env)) + OneTransferMessages(tokens, env, log);
  }

  /** A positive transfer: the sender is told "Sent $d" and the receiver
      "Received $d", with the same `d`; the receiver's body names the sender
      and says "fulfilled your ... request" when the transfer answers a
      request. */
  lemma TransferTitles(tokens: map<Key, seq<string>>, env: Env, log: TransferLog)
    requires !Skipped(log) && log.value > 0
    ensures var d := env.formatDollars(log.value);
      var tx := log.transactionHash.value;
      var sent := TransferSide(tokens, env, tx, log.from.value, log.to.value, -log.value, false);
      sent != [] ==> sent[0].title == "Sent $" + d
    ensures var d := env.formatDollars(log.value);
      var tx := log.transactionHash.value;
      var rr := ReceivingRequestedMoney(log, env);
      var received := TransferSide(tokens, env, tx, log.to.value, log.from.value, log.value, rr);
      var name := env.accountName(env.getEAccount(log.from.value));
      received != [] ==>
        && received[0].title == "Received $" + d
        && received[0].body == if rr then name + " fulfilled your " + d + " " + env.tokenSymbol + " request"
                               else "You received " + d + " " + env.tokenSymbol + " from " + name
  {
  }

  /** A transfer with a payment link or the paymaster gives the other side
      no message. */
  lemma LinkAndPaymasterSilent(tokens: map<Key, seq<string>>, env: Env, log: TransferLog)
    requires !Skipped(log)
    requires env.getEAccount(log.to.value).addrLabel in {Some(PaymentLink), Some(Paymaster)}
    ensures LogMessages(tokens, env, log)
         == TransferSide(tokens, env, log.transactionHash.value, log.to.value, log.from.value, log.value,
                         ReceivingRequestedMoney(log, env))
  {
  }

  /** The messages of one payment-link update. A claim by the sender, and a
      cancellation by anyone else, fail the source's assertions. */
  function NoteOpMessages(tokens: map<Key, seq<string>>, env: Env, op: NoteOp): (r: Result<seq<Message>>)
    ensures r.Err? <==> (op.status == NoteIndexer.NoteState.Claimed && (op.claimer.None? || SameText(op.sender.addr, op.claimer.value.addr)))
                        || (op.status == NoteIndexer.NoteState.Cancelled && (op.claimer.None? || !SameText(op.claimer.value.addr, op.sender.addr)))
    ensures r.Err? ==> r.msg == AssertionFailed
    ensures r.Ok? && op.status != NoteIndexer.NoteState.Claimed ==> |r.value| <= 1
    ensures op.status == NoteIndexer.NoteState.Confirmed ==>
      r == Ok(PushMessages(tokens, op.sender.addr, "Sent $" + op.dollars,
                           "You sent " + op.dollars + " " + env.tokenSymbol + " to a payment link"))
    ensures op.status == NoteIndexer.NoteState.Cancelled && r.Ok? ==>
      r.value == PushMessages(tokens, op.sender.addr, "$" + op.dollars + " claimed",
                              "You cancelled your " + op.dollars + " " + env.tokenSymbol + " payment link")
    ensures r.Ok? ==> forall k :: 0 <= k < |r.value| ==>
      || Some(r.value[k].to) == MapGet(tokens, AddrText(op.sender.addr))
      || (op.claimer.Some? && Some(r.value[k].to) == MapGet(tokens, AddrText(op.claimer.value.addr)))
  {
    var d := op.dollars;
    var sym := env.tokenSymbol;
    match op.status
    case Confirmed =>
      Ok(PushMessages(tokens, op.sender.addr, "Sent $" + d, "You sent " + d + " " + sym + " to a payment link"))
    case Claimed =>
      (match AssertNotNull(op.claimer, None)
       case Err(m) => Err(m)
       case Ok(claimer) =>
         match Assert(!SameText(op.sender.addr, claimer.addr), None)
         case Err(m) => Err(m)
         case Ok(_) =>
           Ok(PushMessages(tokens, op.sender.addr, "$" + d + " claimed",
                           env.accountName(claimer) + " claimed your " + d + " " + sym + " payment link")
              + PushMessages(tokens, claimer.addr, "Received $" + d,
                             "You received " + d + " " + sym + " from " + env.accountName(op.sender))))
    case Cancelled =>
      match Assert(op.claimer.Some? && SameText(op.claimer.value.addr, op.sender.addr), None)
      case Err(m) => Err(m)
      case Ok(_) =>
        Ok(PushMessages(tokens, op.sender.addr, "$" + d + " claimed",
                        "You cancelled your " + d + " " + sym + " payment link"))
  }

  function NoteFn(tokens: map<Key, seq<string>>, env: Env): NoteOp -> Result<seq<Message>>
  {
    (op: NoteOp) => NoteOpMessages(tokens, env, op)
  }

  /** `getPushMessagesFromNoteOps`: the first failing update ends the batch. */
  function NoteMessages(tokens: map<Key, seq<string>>, env: Env, ops: seq<NoteOp>): (r: Result<seq<Message>>)
    ensures r.Ok? <==> forall i :: 0 <= i < |ops| ==> NoteOpMessages(tokens, env, ops[i]).Ok?
    ensures r.Err? ==> r.msg == AssertionFailed
  {
    FlatMapOrFail(ops, NoteFn(tokens, env))
  }

  /** A claim tells the sender first, then the claimer. */
  lemma ClaimTellsSenderThenClaimer(tokens: map<Key, seq<string>>, env: Env, op: NoteOp)
    requires op.status == NoteIndexer.NoteState.Claimed && op.claimer.Some?
    requires !SameText(op.sender.addr, op.claimer.value.addr)
    requires AddrText(op.sender.addr) in tokens && AddrText(op.claimer.value.addr) in tokens
    ensures var r := NoteOpMessages(tokens, env, op);
      && r.Ok? && |r.value| == 2
      && r.value[0].to == tokens[AddrText(op.sender.addr)] && r.value[0].title == "$" + op.dollars + " claimed"
      && r.value[1].to == tokens[AddrText(op.claimer.value.addr)] && r.value[1].title == "Received $" + op.dollars
  {
  }

  /** The messages of one device-key change: none for the keys an account is
      deployed with. */
  function KeyChangeMessages(tokens: map<Key, seq<string>>, env: Env, log: KeyChange): (r: seq<Message>)
    ensures env.isDeploymentLog(log) ==> r == []
    ensures !env.isDeploymentLog(log) ==> r == PushMessages(tokens, GetAddress(log.address),
      env.slotLabel(log.keySlot) + (if log.change == Added then " added" else " removed"),
      if log.change == Added then "You added " + env.slotLabel(log.keySlot) + " to your account"
      else "You removed " + env.slotLabel(log.keySlot) + " from your account")
  {
    var addr := GetAddress(log.address);
    var keyLabel := env.slotLabel(log.keySlot);
    if env.isDeploymentLog(log) then []
    else if log.change == Added then
      PushMessages(tokens, addr, keyLabel + " added", "You added " + keyLabel + " to your account")
    else
      PushMessages(tokens, addr, keyLabel + " removed", "You removed " + keyLabel + " from your account")
  }

  function KeyChangeFn(tokens: map<Key, seq<string>>, env: Env): KeyChange -> seq<Message>
  {
    (log: KeyChange) => KeyChangeMessages(tokens, env, log)
  }

  /** `getPushMessagesFromKeyRotations`, as a function of the token map. */
  function KeyRotationMessages(tokens: map<Key, seq<string>>, env: Env, logs: seq<KeyChange>): (r: seq<Message>)
    ensures forall k :: 0 <= k < |r| ==> r[k].badge == Some(1) && r[k].txHash.None?
  {
    FlatMapAll(logs, KeyChangeFn(tokens, env), Unstamped);
    FlatMap(logs, KeyChangeFn(tokens, env))
  }

  predicate Unstamped(m: Message)
  {
    m.badge == Some(1) && m.txHash.None?
  }

  /** Each key change yields at most one message. */
  lemma {:induction false} KeyRotationMessagesBound(tokens: map<Key, seq<string>>, env: Env, logs: seq<KeyChange>)
    ensures |KeyRotationMessages(tokens, env, logs)| <= |logs|
  {
    if logs != [] {
      KeyRotationMessagesBound(tokens, env, logs[..|logs| - 1]);
    }
  }

  // ---------------------------------------------------------------------
  // The notifier

  class Notifier {
    var pushTokens: map<Key, seq<string>>

    ghost predicate Valid()
      reads this
    {
      TokensValid(pushTokens)
    }

    constructor()
      ensures Valid() && pushTokens == map[]
    {
      pushTokens := map[];
    }

    /** `cachePushToken`. */
    method CachePushToken(addr: Address, pushToken: string)
      requires Valid()
      modifies this
      ensures Valid() && pushTokens == Cached(old(pushTokens), addr, pushToken)
    {
      var tokens := MapGet(pushTokens, AddrText(addr)).GetOr([]);
      CachedValid(pushTokens, addr, pushToken);
      if pushToken in tokens {
        return;
      }
      pushTokens := pushTokens[AddrText(addr) := tokens + [pushToken]];
    }

    /** The token loading of `init`: every stored row, checksummed, in order. */
    method Init(rows: seq<(Address, string)>)
      requires Valid()
      modifies this
      ensures Valid() && pushTokens == CachedAll(old(pushTokens), rows)
    {
      for i := 0 to |rows|
        invariant Valid() && pushTokens == CachedAll(old(pushTokens), rows[..i])
      {
        assert rows[..i + 1][..i] == rows[..i];
        CachePushToken(GetAddress(rows[i].0), rows[i].1);
      }
      assert rows[..|rows|] == rows;
    }

    /** `register`: a token that is not an Expo token is ignored; otherwise
        it is cached and a welcome message goes to that one token. */
    method Register(addr: Address, pushToken: string, isExpoPushToken: bool) returns (welcome: seq<Message>)
      requires Valid()
      modifies this
      ensures Valid()
      ensures !isExpoPushToken ==> pushTokens == old(pushTokens) && welcome == []
      ensures isExpoPushToken ==> pushTokens == Cached(old(pushTokens), addr, pushToken)
      ensures isExpoPushToken ==> welcome == [Message([pushToken], None, "Welcome to Daimo",
                                                      "You'll get a notification when you receive a payment.", None)]
    {
      if !isExpoPushToken {
        return [];
      }
      CachePushToken(addr, pushToken);
      welcome := [Message([pushToken], None, "Welcome to Daimo", "You'll get a notification when you receive a payment.", None)];
    }

    /** `getPushMessagesFromTransfers`. */
    method GetPushMessagesFromTransfers(logs: seq<TransferLog>, env: Env) returns (messages: seq<Message>)
      ensures messages == TransferMessages(pushTokens, env, logs)
    {
      messages := [];
      for i := 0 to |logs|
        invariant messages == TransferMessages(pushTokens, env, logs[..i])
      {
        TransferMessagesStep(pushTokens, env, logs, i);
        var log := logs[i];
        if log.from.None? || log.to.None? {
          continue;
        }
        if log.value == 0 {
          continue;
        }
        if log.transactionHash.None? {
          continue;
        }
        var nonceMetadata := env.fetchNonceMetadata(log.transactionHash.value, log.logIndex);
        var receivingRequestedMoney := nonceMetadata.Some? && env.isRequestResponse(nonceMetadata.value);
        assert receivingRequestedMoney == ReceivingRequestedMoney(log, env);
        var a := TransferSide(pushTokens, env, log.transactionHash.value, log.from.value, log.to.value, -log.value, false);
        var b := TransferSide(pushTokens, env, log.transactionHash.value, log.to.value, log.from.value, log.value,
                              receivingRequestedMoney);
        LogMessagesSides(pushTokens, env, log, a, b);
        messages := messages + (a + b);
      }
      assert logs[..|logs|] == logs;
    }

    /** `getPushMessagesFromNoteOps`. */
    method GetPushMessagesFromNoteOps(ops: seq<NoteOp>, env: Env) returns (r: Result<seq<Message>>)
      ensures r == NoteMessages(pushTokens, env, ops)
    {
      var messages := [];
      for i := 0 to |ops|
        invariant NoteMessages(pushTokens, env, ops[..i]) == Ok(messages)
      {
        assert ops[..i + 1][..i] == ops[..i];
        var m := NoteOpMessages(pushTokens, env, ops[i]);
        if m.Err? {
          FlatMapOrFailErrStays(ops, NoteFn(pushTokens, env), i + 1);
          return Err(m.msg);
        }
        messages := messages + m.value;
      }
      assert ops[..|ops|] == ops;
      r := Ok(messages);
    }

    /** `getPushMessagesFromKeyRotations`. */
    method GetPushMessagesFromKeyRotations(logs: seq<KeyChange>, env: Env) returns (messages: seq<Message>)
      ensures messages == KeyRotationMessages(pushTokens, env, logs)
    {
      messages := [];
      for i := 0 to |logs|
        invariant messages == KeyRotationMessages(pushTokens, env, logs[..i])
      {
        assert logs[..i + 1][..i] == logs[..i];
        var log := logs[i];
        var addr := GetAddress(log.address);
        var keyLabel := env.slotLabel(log.keySlot);
        if env.isDeploymentLog(log) {
          continue;
        }
        if log.change == Added {
          messages := messages + PushMessages(pushTokens, addr, keyLabel + " added", "You added " + keyLabel + " to your account");
        } else {
          messages := messages + PushMessages(pushTokens, addr, keyLabel + " removed", "You removed " + keyLabel + " from your account");
        }
      }
      assert logs[..|logs|] == logs;
    }
  }
}
