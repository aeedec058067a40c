/** Sending a user operation from the phone
    (apps/daimo-mobile/src/action/useSendAsync.ts): the key-slot lookup, the
    account transform that records a pending transfer, the signer choice and
    the status sequence and error classification of `sendAsync`. Signing,
    the network and the op sender library are outside the model: their
    outcomes are parameters. */
module SendAsync {
  import opened Errors
  import opened Common
  import opened AccountModel

  /** Default send deadline, in seconds: an op not seen on chain this long
      after it was sent is treated as dropped. */
  const SendDeadlineSecs: nat := 120

  // ---------------------------------------------------------------------
  // Key slot

  /** `keys.find(k => k.pubKey === pubKey)?.slot`. */
  function FindKeySlot(keys: seq<KeyData>, pubKey: Hex): (r: Option<nat>)
    ensures r.None? <==> forall i :: 0 <= i < |keys| ==> keys[i].pubKey != pubKey
    ensures r.Some? ==> exists i :: 0 <= i < |keys| && keys[i].pubKey == pubKey && keys[i].slot == r.value
                                    && forall j :: 0 <= j < i ==> keys[j].pubKey != pubKey
  {
    if keys == [] then None
    else if keys[0].pubKey == pubKey then Some(keys[0].slot)
    else
      var r := FindKeySlot(keys[1..], pubKey);
      assert r.Some? ==> exists i :: 1 <= i < |keys| && keys[i].pubKey == pubKey && keys[i].slot == r.value
                                     && forall j :: 0 <= j < i ==> keys[j].pubKey != pubKey by {
        if r.Some? {
          var i :| 0 <= i < |keys[1..]| && keys[1..][i].pubKey == pubKey && keys[1..][i].slot == r.value
                   && forall j :: 0 <= j < i ==> keys[1..][j].pubKey != pubKey;
          assert keys[i + 1] == keys[1..][i];
          assert forall j :: 1 <= j < i + 1 ==> keys[j] == keys[1..][j - 1];
        }
      }
      r
  }

  /** The slot of this device's key in the (possibly absent) account. */
  function KeySlot(account: Option<Account>): (r: Option<nat>)
    ensures account.None? ==> r.None?
    ensures account.Some? ==> r == FindKeySlot(account.value.accountKeys, account.value.enclavePubKey)
  {
    if account.None? then None
    else FindKeySlot(account.value.accountKeys, account.value.enclavePubKey)
  }

  // ---------------------------------------------------------------------
  // Recording a pending transfer

  /** The supplied contacts whose address text matches none in `existing`. */
  function NewContacts(supplied: seq<EAccount>, existing: seq<EAccount>): (r: seq<EAccount>)
    ensures |r| <= |supplied|
  {
    Filter(supplied, (a: EAccount) => !Exists(existing, (b: EAccount) => SameText(b.addr, a.addr)))
  }

  /** The account `transferAccountTransform` returns: the pending op
      appended, the new contacts appended, everything else kept. */
  function TransferAccount(account: Account, pendingOp: OpEvent, newContacts: seq<EAccount>): (r: Account)
    ensures |r.recentTransfers| == |account.recentTransfers| + 1 && r.recentTransfers[|account.recentTransfers|] == pendingOp
    ensures account.recentTransfers <= r.recentTransfers && account.namedAccounts <= r.namedAccounts
    ensures r.(recentTransfers := account.recentTransfers, namedAccounts := account.namedAccounts) == account
  {
    account.(recentTransfers := account.recentTransfers + [pendingOp],
             namedAccounts := account.namedAccounts + newContacts)
  }

  predicate TransformableOp(op: OpEvent)
  {
    op.opType == Transfer || op.opType == CreateLink || op.opType == ClaimLink
  }

  /** The closure `transferAccountTransform(namedAccounts)` returns. It
      narrows the captured `namedAccounts` to the new ones each time it runs. */
  class TransferTransform {
    var namedAccounts: seq<EAccount>

    constructor(namedAccounts: seq<EAccount>)
      ensures this.namedAccounts == namedAccounts
    {
      this.namedAccounts := namedAccounts;
    }

    method Apply(account: Account, pendingOp: OpEvent) returns (r: Result<Account>)
      modifies this
      ensures r.Ok? <==> TransformableOp(pendingOp)
      ensures r.Err? ==> r.msg == AssertionFailed && namedAccounts == old(namedAccounts)
      ensures r.Ok? ==> namedAccounts == NewContacts(old(namedAccounts), account.namedAccounts)
      ensures r.Ok? ==> r.value == TransferAccount(account, pendingOp, namedAccounts)
    {
      var check := Assert(TransformableOp(pendingOp), None);
      if check.Err? {
        return Err(check.msg);
      }
      namedAccounts := NewContacts(namedAccounts, account.namedAccounts);
      r := Ok(TransferAccount(account, pendingOp, namedAccounts));
    }
  }

  /** The new contacts are supplied contacts whose address text is not
      among the existing ones. */
  lemma NewContactsAreNew(supplied: seq<EAccount>, existing: seq<EAccount>)
    ensures var added := NewContacts(supplied, existing);
      forall i, j :: 0 <= i < |added| && 0 <= j < |existing| ==>
        added[i] in supplied && !SameText(existing[j].addr, added[i].addr)
  {
    var p := (a: EAccount) => !Exists(existing, (b: EAccount) => SameText(b.addr, a.addr));
    var added := Filter(supplied, p);
    forall i, j | 0 <= i < |added| && 0 <= j < |existing|
      ensures !SameText(existing[j].addr, added[i].addr)
    {
      assert p(added[i]);
    }
  }

  /** Every supplied contact has a text match among the existing ones or is
      among the new contacts. */
  lemma NewContactsCover(supplied: seq<EAccount>, existing: seq<EAccount>)
    ensures var added := NewContacts(supplied, existing);
      forall c :: c in supplied ==>
        c in added || exists j :: 0 <= j < |existing| && SameText(existing[j].addr, c.addr)
  {
    var p := (a: EAccount) => !Exists(existing, (b: EAccount) => SameText(b.addr, a.addr));
    var added := Filter(supplied, p);
    forall c | c in supplied
      ensures c in added || exists j :: 0 <= j < |existing| && SameText(existing[j].addr, c.addr)
    {
      var k :| 0 <= k < |supplied| && supplied[k] == c;
      if p(c) {
        assert supplied[k] in added;
      }
    }
  }

  /** The transformed account keeps the history as a prefix with the op
      last, keeps the contacts as a prefix, adds only contacts not already
      present, adds every supplied contact that was missing, and changes no
      other field. */
  lemma TransferAccountSpec(account: Account, pendingOp: OpEvent, supplied: seq<EAccount>)
    ensures var a := TransferAccount(account, pendingOp, NewContacts(supplied, account.namedAccounts));
      && a.recentTransfers[..|account.recentTransfers|] == account.recentTransfers
      && a.recentTransfers[|a.recentTransfers| - 1] == pendingOp
      && |a.recentTransfers| == |account.recentTransfers| + 1
      && a.namedAccounts[..|account.namedAccounts|] == account.namedAccounts
      && (forall i :: |account.namedAccounts| <= i < |a.namedAccounts| ==>
            a.namedAccounts[i] in supplied
            && forall j :: 0 <= j < |account.namedAccounts| ==> !SameText(account.namedAccounts[j].addr, a.namedAccounts[i].addr))
      && (forall c :: c in supplied ==>
            exists j :: 0 <= j < |a.namedAccounts| && SameText(a.namedAccounts[j].addr, c.addr))
      && a.(recentTransfers := account.recentTransfers, namedAccounts := account.namedAccounts) == account
  {
    var existing := account.namedAccounts;
    var added := NewContacts(supplied, existing);
    var all := existing + added;
    var n := |existing|;
    NewContactsAreNew(supplied, existing);
    NewContactsCover(supplied, existing);
    forall i | n <= i < |all|
      ensures all[i] in supplied
      ensures forall j :: 0 <= j < n ==> !SameText(existing[j].addr, all[i].addr)
    {
      assert all[i] == added[i - n];
    }
    forall c | c in supplied
      ensures exists j :: 0 <= j < |all| && SameText(all[j].addr, c.addr)
    {
      if c in added {
        var m :| 0 <= m < |added| && added[m] == c;
        assert all[n + m] == c;
      } else {
        var j :| 0 <= j < n && SameText(existing[j].addr, c.addr);
        assert all[j] == existing[j];
      }
    }
  }

  // ---------------------------------------------------------------------
  // Sending

  /** How the op is signed. */
  datatype Signer = PasskeySigner | DeviceKeySigner(keySlot: nat)

  /** The check at the top of `loadOpSender`, and the signer it then builds. */
  function LoadOpSender(keySlot: Option<nat>, usePasskey: bool): (r: Result<Signer>)
    ensures r.Ok? <==> (keySlot.None? <==> usePasskey)
    ensures r.Err? ==> r.msg == "Key slot and passkey are mutually exclusive"
    ensures r.Ok? && usePasskey ==> r.value == PasskeySigner
    ensures r.Ok? && !usePasskey ==> r.value == DeviceKeySigner(keySlot.value)
  {
    match Assert(keySlot.None? == usePasskey, Some("Key slot and passkey are mutually exclusive"))
    case Err(m) => Err(m)
    case Ok(_) => Ok(if usePasskey then PasskeySigner else DeviceKeySigner(keySlot.value))
  }

  /** A thrown value: `namedError` is the name of a `NamedError`, `None` for
      any other `Error`. */
  datatype Thrown = Thrown(namedError: Option<string>, message: string)

  /** The outcome of an awaited call that can throw. */
  datatype Outcome<+T> = Returned(value: T) | Threw(error: Thrown)

  datatype StatusKind = Loading | Success | Failure

  /** One `setAS(kind, message)` call. */
  datatype ActStatus = ActStatus(kind: StatusKind, message: string)

  const SignerErrorNames: seq<string> := ["ExpoEnclaveSign", "ExpoPasskeysCreate", "ExpoPasskeysSign"]

  /** The message shown when sending fails. */
  function ErrorStatus(keySlot: Option<nat>, e: Thrown): (m: string)
    ensures keySlot.None? ==> m == "Device removed from account"
    ensures keySlot.Some? && e.namedError.Some? && e.namedError.value in SignerErrorNames ==> m == e.message
    ensures keySlot.Some? && !(e.namedError.Some? && e.namedError.value in SignerErrorNames) ==>
      m == (if e.message == "Network request failed" then "Request failed. Offline?" else "Error sending transaction")
  {
    if keySlot.None? then "Device removed from account"
    else if e.namedError.Some? && e.namedError.value in SignerErrorNames then e.message
    else if e.message == "Network request failed" then "Request failed. Offline?"
    else "Error sending transaction"
  }

  /** `sendAsync`: `initError` is how `DaimoOpSender.init` fails, if it does,
      and `sent` is the outcome of `sendFn`. Returns the statuses set, in
      order, and the op hash or the error it rethrows. */
  method Send(keySlot: Option<nat>, usePasskey: bool, initError: Option<Thrown>, sent: Outcome<Hex>)
    returns (statuses: seq<ActStatus>, r: Outcome<Hex>)
    ensures r.Returned? <==>
      (keySlot.Some? || usePasskey) && LoadOpSender(keySlot, usePasskey).Ok? && initError.None? && sent.Returned?
    ensures r.Returned? ==>
      && r.value == sent.value
      && statuses == [ActStatus(Loading, "Loading account..."), ActStatus(Loading, "Signing..."), ActStatus(Success, "Accepted")]
    ensures keySlot.None? && !usePasskey ==>
      && r == Threw(Thrown(None, "No key slot or passkey"))
      && statuses == [ActStatus(Failure, "Device removed from account")]
    ensures r.Threw? ==>
      && |statuses| >= 1
      && statuses[|statuses| - 1] == ActStatus(Failure, ErrorStatus(keySlot, r.error))
      && forall i :: 0 <= i < |statuses| - 1 ==> statuses[i].kind == Loading
    ensures sent.Threw? && r.Threw? && |statuses| == 3 ==> r.error == sent.error
    ensures (keySlot.Some? || usePasskey) && LoadOpSender(keySlot, usePasskey).Err? ==>
      && r == Threw(Thrown(None, LoadOpSender(keySlot, usePasskey).msg))
      && statuses == [ActStatus(Loading, "Loading account..."), ActStatus(Failure, ErrorStatus(keySlot, r.error))]
    ensures (keySlot.Some? || usePasskey) && LoadOpSender(keySlot, usePasskey).Ok? && initError.Some? ==>
      && r == Threw(initError.value)
      && statuses == [ActStatus(Loading, "Loading account..."), ActStatus(Failure, ErrorStatus(keySlot, r.error))]
    ensures (keySlot.Some? || usePasskey) && LoadOpSender(keySlot, usePasskey).Ok? && initError.None? && sent.Threw? ==>
      && r == Threw(sent.error)
      && statuses == [ActStatus(Loading, "Loading account..."), ActStatus(Loading, "Signing..."),
                      ActStatus(Failure, ErrorStatus(keySlot, r.error))]
  {
    statuses := [];
    var e: Thrown;
    if keySlot.None? && !usePasskey {
      e := Thrown(None, "No key slot or passkey");
    } else {
      statuses := statuses + [ActStatus(Loading, "Loading account...")];
      var signer := LoadOpSender(keySlot, usePasskey);
      if signer.Err? {
        e := Thrown(None, signer.msg);
      } else if initError.Some? {
        e := initError.value;
      } else {
        statuses := statuses + [ActStatus(Loading, "Signing...")];
        if sent.Returned? {
          statuses := statuses + [ActStatus(Success, "Accepted")];
          return statuses, sent;
        }
        e := sent.error;
      }
    }
    statuses := statuses + [ActStatus(Failure, ErrorStatus(keySlot, e))];
    r := Threw(e);
  }
}
