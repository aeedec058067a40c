/** The account snapshot the phone keeps (apps/daimo-mobile/src/model/account.ts):
    the versioned load and save of the stored record, and `AccountManager`,
    the single-slot store that persists the account and notifies listeners.

    The JSON text is abstracted: the stored value under the key "account" is
    an `Option<StoredModel>`, where `None` stands for the empty string or a
    missing key and `Some(m)` for the JSON text of the record `m`. */
module AccountModel {
  import opened Errors
  import opened Common
  import Decimal
  import DaimoLink

  /** Account data stored on device. */
  datatype Account = Account(
    enclaveKeyName: string,
    enclavePubKey: Hex,
    name: string,
    address: Address,
    homeChainId: nat,
    homeCoinAddress: Address,
    lastBlock: nat,
    lastBlockTimestamp: int,
    lastBalance: int,
    lastFinalizedBlock: nat,
    recentTransfers: seq<OpEvent>,
    trackedRequests: seq<TrackedRequest>,
    pendingNotes: seq<DaimoLink.DaimoLink>,
    namedAccounts: seq<EAccount>,
    accountKeys: seq<KeyData>,
    pendingKeyRotation: seq<KeyRotationOp>,
    chainGasConstants: ChainGasConstants,
    pushToken: Option<string>)

  /** `toEAccount`: the account's own address and name, and nothing else. */
  function ToEAccount(account: Account): (e: EAccount)
    ensures e.addr == account.address && e.name == Some(account.name) && e.addrLabel.None?
  {
    EAccount(account.address, Some(account.name), None)
  }

  /** Gas constants as stored before version 9: no `preVerificationGas`. */
  datatype ChainGasConstantsV8 = ChainGasConstantsV8(
    maxFeePerGas: string,
    maxPriorityFeePerGas: string,
    estimatedFee: real,
    paymasterAddress: Hex)

  datatype AccountV8 = AccountV8(
    enclaveKeyName: string,
    enclavePubKey: Hex,
    name: string,
    address: Address,
    homeChainId: nat,
    homeCoinAddress: Address,
    lastBlock: nat,
    lastBlockTimestamp: int,
    lastBalance: string,
    lastFinalizedBlock: nat,
    recentTransfers: seq<OpEvent>,
    trackedRequests: seq<TrackedRequest>,
    pendingNotes: Option<seq<DaimoLink.DaimoLink>>,  // absent in early version-8 records
    namedAccounts: seq<EAccount>,
    accountKeys: seq<KeyData>,
    chainGasConstants: ChainGasConstantsV8,
    pushToken: Option<string>)

  datatype AccountV9 = AccountV9(
    enclaveKeyName: string,
    enclavePubKey: Hex,
    name: string,
    address: Address,
    homeChainId: nat,
    homeCoinAddress: Address,
    lastBlock: nat,
    lastBlockTimestamp: int,
    lastBalance: string,
    lastFinalizedBlock: nat,
    recentTransfers: seq<OpEvent>,
    trackedRequests: seq<TrackedRequest>,
    pendingNotes: seq<DaimoLink.DaimoLink>,
    namedAccounts: seq<EAccount>,
    accountKeys: seq<KeyData>,
    pendingKeyRotation: seq<KeyRotationOp>,
    chainGasConstants: ChainGasConstants,
    pushToken: Option<string>)

  /** A `storageVersion` this file has no record layout for. */
  type OtherVersion = v: int | v != 8 && v != 9

  /** A parsed stored record, by its `storageVersion`. */
  datatype StoredModel = V8(v8: AccountV8) | V9(v9: AccountV9) | Other(storageVersion: OtherVersion)

  const CurrentVersion: nat := 9

  function StorageVersion(m: StoredModel): int
  {
    match m
    case V8(_) => 8
    case V9(_) => 9
    case Other(v) => v
  }

  /** `parseAccount`: `Ok(None)` for the null account, `Err` where it throws
      (an unknown version at or above 8, or a balance `BigInt` rejects). */
  function ParseAccount(stored: Option<StoredModel>): (r: Result<Option<Account>>)
    ensures stored.None? ==> r == Ok(None)
    ensures stored.Some? && StorageVersion(stored.value) < 8 ==> r == Ok(None)
    ensures stored.Some? && stored.value.Other? && stored.value.storageVersion >= 8 ==> r == Err(AssertionFailed)
    ensures r.Ok? && r.value.Some? ==> r.value.value.address.checksummed && r.value.value.homeCoinAddress.checksummed
  {
    match stored
    case None => Ok(None)
    case Some(V8(a)) =>
      (match Decimal.ParseBigInt(a.lastBalance)
       case Err(m) => Err(m)
       case Ok(balance) =>
         var g := a.chainGasConstants;
         Ok(Some(Account(
           a.enclaveKeyName, a.enclavePubKey, a.name, GetAddress(a.address),
           a.homeChainId, GetAddress(a.homeCoinAddress),
           a.lastBlock, a.lastBlockTimestamp, balance, a.lastFinalizedBlock,
           a.recentTransfers, a.trackedRequests, a.pendingNotes.GetOr([]), a.namedAccounts,
           a.accountKeys, [],
           ChainGasConstants(g.maxFeePerGas, g.maxPriorityFeePerGas, "0", g.estimatedFee, g.paymasterAddress),
           a.pushToken))))
    case Some(Other(v)) =>
      // `assert(model.storageVersion === 9)` throws for every other version.
      if v < 8 then Ok(None) else Err(Assert(false, None).msg)
    case Some(V9(a)) =>
      match Decimal.ParseBigInt(a.lastBalance)
      case Err(m) => Err(m)
      case Ok(balance) =>
        Ok(Some(Account(
          a.enclaveKeyName, a.enclavePubKey, a.name, GetAddress(a.address),
          a.homeChainId, GetAddress(a.homeCoinAddress),
          a.lastBlock, a.lastBlockTimestamp, balance, a.lastFinalizedBlock,
          a.recentTransfers, a.trackedRequests, a.pendingNotes, a.namedAccounts,
          a.accountKeys, a.pendingKeyRotation, a.chainGasConstants, a.pushToken)))
  }

  /** `serializeAccount`: the null account is the empty string; any other is
      written as a version-9 record with the balance in decimal. */
  function SerializeAccount(account: Option<Account>): (r: Option<StoredModel>)
    ensures account.None? <==> r.None?
    ensures r.Some? ==> r.value.V9? && StorageVersion(r.value) == CurrentVersion
    ensures r.Some? ==> r.value.v9.lastBalance == Decimal.IntToString(account.value.lastBalance)
  {
    match account
    case None => None
    case Some(a) =>
      Some(V9(AccountV9(
        a.enclaveKeyName, a.enclavePubKey, a.name, a.address,
        a.homeChainId, a.homeCoinAddress,
        a.lastBlock, a.lastBlockTimestamp, Decimal.IntToString(a.lastBalance), a.lastFinalizedBlock,
        a.recentTransfers, a.trackedRequests, a.pendingNotes, a.namedAccounts,
        a.accountKeys, a.pendingKeyRotation, a.chainGasConstants, a.pushToken)))
  }

  /** Every address in the account is already in checksum case. */
  predicate Checksummed(a: Account)
  {
    a.address.checksummed && a.homeCoinAddress.checksummed
  }

  /** Saving then loading reproduces every field. */
  lemma SerializeParseRoundTrip(account: Option<Account>)
    requires account.Some? ==> Checksummed(account.value)
    ensures ParseAccount(SerializeAccount(account)) == Ok(account)
  {
    if account.Some? {
      Decimal.ParseIntToString(account.value.lastBalance);
    }
  }

  /** A version-8 record migrates: no pending key rotations, missing pending
      notes become empty, `preVerificationGas` is "0", and every other field
      is carried over with the addresses in checksum case. */
  lemma MigrateV8(a: AccountV8)
    requires Decimal.ParseBigInt(a.lastBalance).Ok?
    ensures var r := ParseAccount(Some(V8(a)));
      && r.Ok? && r.value.Some?
      && var acc := r.value.value;
      && acc.pendingKeyRotation == []
      && acc.pendingNotes == (if a.pendingNotes.Some? then a.pendingNotes.value else [])
      && acc.chainGasConstants.preVerificationGas == "0"
      && acc.chainGasConstants.maxFeePerGas == a.chainGasConstants.maxFeePerGas
      && acc.chainGasConstants.paymasterAddress == a.chainGasConstants.paymasterAddress
      && acc.address == GetAddress(a.address)
      && acc.homeCoinAddress == GetAddress(a.homeCoinAddress)
      && acc.lastBalance == Decimal.ParseBigInt(a.lastBalance).value
      && acc.recentTransfers == a.recentTransfers
      && acc.namedAccounts == a.namedAccounts
      && acc.accountKeys == a.accountKeys
      && acc.enclaveKeyName == a.enclaveKeyName && acc.enclavePubKey == a.enclavePubKey
      && acc.name == a.name && acc.homeChainId == a.homeChainId
      && acc.lastBlock == a.lastBlock && acc.lastBlockTimestamp == a.lastBlockTimestamp
      && acc.lastFinalizedBlock == a.lastFinalizedBlock
      && acc.trackedRequests == a.trackedRequests && acc.pushToken == a.pushToken
      && acc.chainGasConstants.maxPriorityFeePerGas == a.chainGasConstants.maxPriorityFeePerGas
      && acc.chainGasConstants.estimatedFee == a.chainGasConstants.estimatedFee
  {
  }

  /** The load-then-save the manager does on start-up brings any loadable
      record to version 9, and a second load-then-save changes nothing. */
  lemma LoadSaveStable(stored: Option<StoredModel>)
    requires ParseAccount(stored).Ok?
    ensures var saved := SerializeAccount(ParseAccount(stored).value);
      && (saved.Some? ==> StorageVersion(saved.value) == CurrentVersion)
      && ParseAccount(saved) == ParseAccount(stored)
  {
    SerializeParseRoundTrip(ParseAccount(stored).value);
  }

  // ---------------------------------------------------------------------
  // AccountManager

  /** What `setCurrentAccount` does that other code can observe, in order. */
  datatype ManagerEvent =
    | CachedNames(accounts: seq<EAccount>)        // cacheEAccounts(namedAccounts)
    | Saved(blob: Option<StoredModel>)             // mmkv.set("account", ...)
    | Notified(listener: ListenerId, account: Option<Account>)

  /** One call per listener, in the listeners' order. */
  function Notifications(listeners: seq<ListenerId>, account: Option<Account>): (r: seq<ManagerEvent>)
    ensures |r| == |listeners|
    ensures forall i :: 0 <= i < |r| ==> r[i] == Notified(listeners[i], account)
  {
    if listeners == [] then []
    else [Notified(listeners[0], account)] + Notifications(listeners[1..], account)
  }

  /** What one `setCurrentAccount(account)` appends to the event trace. */
  function SetEvents(listeners: seq<ListenerId>, account: Option<Account>): seq<ManagerEvent>
  {
    (if account.Some? then [CachedNames(account.value.namedAccounts)] else [])
    + [Saved(SerializeAccount(account))]
    + Notifications(listeners, account)
  }

  lemma {:induction false} NotificationsSnoc(listeners: seq<ListenerId>, l: ListenerId, account: Option<Account>)
    ensures Notifications(listeners + [l], account) == Notifications(listeners, account) + [Notified(l, account)]
  {
    if listeners != [] {
      assert (listeners + [l])[1..] == listeners[1..] + [l];
      NotificationsSnoc(listeners[1..], l, account);
    }
  }

  lemma Notify(ls: seq<ListenerId>, i: nat, account: Option<Account>)
    requires i < |ls|
    ensures Notifications(ls[..i + 1], account) == Notifications(ls[..i], account) + [Notified(ls[i], account)]
  {
    NotificationsSnoc(ls[..i], ls[i], account);
    assert ls[..i + 1] == ls[..i] + [ls[i]];
  }

  /** Each registered listener is called exactly once, and no other is called. */
  lemma {:induction false} NotifiedExactlyOnce(listeners: seq<ListenerId>, account: Option<Account>, l: ListenerId)
    requires Distinct(listeners)
    ensures multiset(Notifications(listeners, account))[Notified(l, account)] == if l in listeners then 1 else 0
  {
    if listeners != [] {
      var rest := listeners[1..];
      NotifiedExactlyOnce(rest, account, l);
      assert listeners == [listeners[0]] + rest;
      assert listeners[0] !in rest;
      var n := multiset(Notifications(listeners, account))[Notified(l, account)];
      assert n == multiset([Notified(listeners[0], account)])[Notified(l, account)]
               + multiset(Notifications(rest, account))[Notified(l, account)];
    }
  }

  /** The listener is called after the account is cached and saved. */
  lemma SaveBeforeNotify(listeners: seq<ListenerId>, account: Option<Account>, i: nat, j: nat)
    requires i < j < |SetEvents(listeners, account)|
    requires SetEvents(listeners, account)[j].Saved? || SetEvents(listeners, account)[j].CachedNames?
    ensures !SetEvents(listeners, account)[i].Notified?
  {
  }

  lemma SetEventsAfter(t0: seq<ManagerEvent>, t1: seq<ManagerEvent>, t2: seq<ManagerEvent>,
                       listeners: seq<ListenerId>, account: Option<Account>)
    requires t1 == t0 + (if account.Some? then [CachedNames(account.value.namedAccounts)] else [])
                    + [Saved(SerializeAccount(account))]
    requires t2 == t1 + Notifications(listeners, account)
    ensures t2 == t0 + SetEvents(listeners, account)
  {
  }

  class AccountManager {
    var currentAccount: Option<Account>
    /** The MMKV value under the key "account". */
    var stored: Option<StoredModel>
    /** The registered listeners, in insertion order. */
    var listeners: seq<ListenerId>
    /** Every observable effect so far, oldest first. */
    var trace: seq<ManagerEvent>

    /** A `Set` never holds a listener twice. */
    predicate Valid()
      reads this`listeners
    {
      Distinct(listeners)
    }

    constructor Empty(stored: Option<StoredModel>)
      ensures Valid()
      ensures this.stored == stored && currentAccount.None? && listeners == [] && trace == []
    {
      this.stored := stored;
      currentAccount := None;
      listeners := [];
      trace := [];
    }

    /** `listeners.add(l)`: adding a present listener changes nothing. */
    method AddListener(l: ListenerId)
      requires Valid()
      modifies this
      ensures Valid()
      ensures listeners == if l in old(listeners) then old(listeners) else old(listeners) + [l]
      ensures currentAccount == old(currentAccount) && stored == old(stored) && trace == old(trace)
    {
      if l !in listeners {
        DistinctAppend(listeners, l);
        listeners := listeners + [l];
      }
    }

    /** `listeners.delete(l)`: the others keep their order. */
    method RemoveListener(l: ListenerId)
      requires Valid()
      modifies this
      ensures Valid()
      ensures listeners == Filter(old(listeners), (x: ListenerId) => x != l)
      ensures l !in listeners
      ensures currentAccount == old(currentAccount) && stored == old(stored) && trace == old(trace)
    {
      DistinctFilter(listeners, l);
      listeners := Filter(listeners, (x: ListenerId) => x != l);
    }

    /** `setCurrentAccount`: cache the contacts, store and save the account,
        then call every listener once with it. */
    method SetCurrentAccount(account: Option<Account>)
      modifies this`currentAccount, this`stored, this`trace
      ensures currentAccount == account
      ensures stored == SerializeAccount(account)
      ensures trace == old(trace) + SetEvents(listeners, account)
    {
      ghost var t0 := trace;
      StoreAccount(account);
      ghost var t1 := trace;
      NotifyListeners(account);
      SetEventsAfter(t0, t1, trace, listeners, account);
    }

    /** The caching and saving half of `setCurrentAccount`. */
    method StoreAccount(account: Option<Account>)
      modifies this`currentAccount, this`stored, this`trace
      ensures currentAccount == account
      ensures stored == SerializeAccount(account)
      ensures trace == old(trace) + (if account.Some? then [CachedNames(account.value.namedAccounts)] else [])
                       + [Saved(SerializeAccount(account))]
    {
      if account.Some? {
        trace := trace + [CachedNames(account.value.namedAccounts)];
      }
      currentAccount := account;
      stored := SerializeAccount(account);
      trace := trace + [Saved(stored)];
    }

    /** The `for (const listener of this.listeners)` loop. */
    method NotifyListeners(account: Option<Account>)
      modifies this`trace
      ensures trace == old(trace) + Notifications(listeners, account)
    {
      var ls := listeners;
      for i := 0 to |ls|
        invariant trace == old(trace) + Notifications(ls[..i], account)
      {
        Notify(ls, i, account);
        trace := trace + [Notified(ls[i], account)];
      }
      assert ls[..|ls|] == ls;
    }
  }

  lemma {:induction false} DistinctFilter(s: seq<ListenerId>, l: ListenerId)
    requires Distinct(s)
    ensures Distinct(Filter(s, (x: ListenerId) => x != l))
  {
    if s != [] {
      DistinctFilter(s[1..], l);
      var rest := Filter(s[1..], (x: ListenerId) => x != l);
      assert forall k :: 0 <= k < |rest| ==> rest[k] in s[1..];
      assert s[0] !in rest;
      if s[0] != l {
        assert ([s[0]] + rest)[1..] == rest;
      } else {
        assert [] + rest == rest;
      }
    }
  }

  /** `new AccountManager()`: load the stored account and save it back in the
      current version. A record that fails to load makes the constructor throw. */
  method NewAccountManager(stored: Option<StoredModel>) returns (r: Result<AccountManager>)
    ensures r.Ok? <==> ParseAccount(stored).Ok?
    ensures r.Err? ==> r.msg == ParseAccount(stored).msg
    ensures r.Ok? ==>
      && fresh(r.value) && r.value.Valid()
      && r.value.currentAccount == ParseAccount(stored).value
      && r.value.stored == SerializeAccount(ParseAccount(stored).value)
      && r.value.listeners == []
      && r.value.trace == SetEvents([], ParseAccount(stored).value)
  {
    var m := new AccountManager.Empty(stored);
    match ParseAccount(stored) {
      case Err(msg) =>
        r := Err(msg);
      case Ok(account) =>
        m.currentAccount := account;
        m.SetCurrentAccount(account);
        r := Ok(m);
    }
  }
}
