/** Value types shared by the wallet and the indexers (the `@daimo/common`
    shapes that the core files exchange). Only the fields the core reads or
    writes are kept. */
module Common {
  import opened Errors

  /** An Ethereum address as TEXT: the 160-bit value `id`, written either in
      lower case (`bytesToHex`) or in EIP-55 checksum case (`getAddress`).
      Two texts of the same value may differ only when the value has a hex
      letter among its digits. */
  datatype Address = Address(id: nat, checksummed: bool)

  /** viem `getAddress`: the checksum-case text of the same value. */
  function GetAddress(a: Address): (r: Address)
    ensures r.id == a.id && r.checksummed
  {
    Address(a.id, true)
  }

  /** viem `bytesToHex`: the lower-case text of an address value. */
  function LowerHex(id: nat): (r: Address)
    ensures r.id == id && !r.checksummed
  {
    Address(id, false)
  }

  /** The text of an address up to the case of digits: two addresses have
      the same text exactly when their `AddrText` is equal. Checksum and
      lower-case text may differ only when the hex form has a letter; the
      model takes them to differ whenever it has one. */
  function AddrText(a: Address): (t: (nat, bool))
    ensures t.0 == a.id
  {
    (a.id, a.checksummed && HexHasLetter(a.id))
  }

  /** Whether the 40-digit hex form of `id` contains a letter a-f. */
  predicate HexHasLetter(id: nat)
    decreases id
  {
    id % 16 >= 10 || (id >= 16 && HexHasLetter(id / 16))
  }

  /** JavaScript `===` on two address texts. */
  predicate SameText(a: Address, b: Address)
    ensures SameText(a, b) ==> a.id == b.id
    ensures a.checksummed == b.checksummed ==> (SameText(a, b) <==> a.id == b.id)
  {
    AddrText(a) == AddrText(b)
  }

  /** Equal texts: the same value, and the same case unless no digit is a letter. */
  lemma SameTextMeaning(a: Address, b: Address)
    ensures SameText(a, b) <==> a.id == b.id && (a.checksummed == b.checksummed || !HexHasLetter(a.id))
  {
  }

  /** Hex data (hashes, keys, nonce metadata) as text. */
  type Hex = string

  datatype AddrLabel = PaymentLink | Paymaster | Faucet | OtherLabel(text: string)

  /** A named Ethereum account. */
  datatype EAccount = EAccount(addr: Address, name: Option<string>, addrLabel: Option<AddrLabel>)

  datatype OpStatus = Pending | Confirmed | Finalized | Failed | Expired

  datatype OpType = Transfer | CreateLink | ClaimLink | KeyRotation

  /** A transfer or payment-link operation as the wallet displays it. A pending
      op has no chain coordinates yet; `blockNumber == Some(0)` is falsy in the
      source and is treated like `None` wherever the source tests truthiness. */
  datatype OpEvent = OpEvent(
    opType: OpType,
    status: OpStatus,
    from: Address,
    to: Address,
    amount: int,
    feeAmount: Option<int>,
    nonceMetadata: Option<Hex>,
    timestamp: int,
    txHash: Option<Hex>,
    blockNumber: Option<nat>,
    blockHash: Option<Hex>,
    logIndex: Option<nat>,
    opHash: Option<Hex>)

  /** An authorised device key. */
  datatype KeyData = KeyData(pubKey: Hex, addedAt: nat, slot: nat, removedAt: Option<nat>)

  datatype RotationType = AddKey | RemoveKey

  /** An in-flight key add or remove. */
  datatype KeyRotationOp = KeyRotationOp(rotationType: RotationType, slot: nat, opHash: Option<Hex>, timestamp: int)

  /** Current gas and paymaster constants. `paymasterAddress` is the hex text
      of the paymaster-and-data field. */
  datatype ChainGasConstants = ChainGasConstants(
    maxFeePerGas: string,
    maxPriorityFeePerGas: string,
    preVerificationGas: string,
    estimatedFee: real,
    paymasterAddress: Hex)

  /** A payment request sent from this account, carried verbatim. */
  datatype TrackedRequest = TrackedRequest(requestId: string, amount: string)

  /** Identity of a registered callback (JavaScript compares functions by reference). */
  type ListenerId = nat

  /** `m.get(k)` on a JavaScript `Map`. */
  function MapGet<K, V>(m: map<K, V>, k: K): (r: Option<V>)
    ensures r.Some? <==> k in m
    ensures r.Some? ==> r.value == m[k]
  {
    if k in m then Some(m[k]) else None
  }

  /** One call of a registered callback with its argument. */
  datatype Call<+T> = Call(listener: ListenerId, arg: T)

  /** `listeners.forEach((l) => l(arg))`: the calls, in registration order. */
  function Calls<T>(listeners: seq<ListenerId>, arg: T): (r: seq<Call<T>>)
    ensures |r| == |listeners|
    ensures forall i :: 0 <= i < |r| ==> r[i] == Call(listeners[i], arg)
  {
    if listeners == [] then []
    else Calls(listeners[..|listeners| - 1], arg) + [Call(listeners[|listeners| - 1], arg)]
  }

  /** `a.find(pred) != null` over a sequence. */
  predicate Exists<T>(s: seq<T>, p: T -> bool)
  {
    exists i :: 0 <= i < |s| && p(s[i])
  }

  /** No element occurs twice (the iteration order of a JavaScript `Set`). */
  predicate Distinct<T(==)>(s: seq<T>)
  {
    s == [] || (s[0] !in s[1..] && Distinct(s[1..]))
  }

  lemma {:induction false} DistinctAppend<T>(s: seq<T>, x: T)
    requires Distinct(s) && x !in s
    ensures Distinct(s + [x])
  {
    if s != [] {
      assert (s + [x])[1..] == s[1..] + [x];
      DistinctAppend(s[1..], x);
    }
  }

  /** `s.filter(p)`. */
  function Filter<T>(s: seq<T>, p: T -> bool): (r: seq<T>)
    ensures |r| <= |s|
    ensures forall i :: 0 <= i < |r| ==> r[i] in s && p(r[i])
    ensures forall i :: 0 <= i < |s| && p(s[i]) ==> s[i] in r
  {
    if s == [] then [] else (if p(s[0]) then [s[0]] else []) + Filter(s[1..], p)
  }

  /** An element of the input is kept exactly when it passes the test. */
  lemma FilterMember<T>(s: seq<T>, p: T -> bool, x: T)
    requires x in s
    ensures x in Filter(s, p) <==> p(x)
  {
    if x in Filter(s, p) {
      var i :| 0 <= i < |Filter(s, p)| && Filter(s, p)[i] == x;
    }
  }

  lemma {:induction false} FilterConcat<T>(a: seq<T>, b: seq<T>, p: T -> bool)
    ensures Filter(a + b, p) == Filter(a, p) + Filter(b, p)
  {
    if a == [] {
      assert a + b == b;
    } else {
      assert (a + b)[1..] == a[1..] + b;
      FilterConcat(a[1..], b, p);
    }
  }

  /** A loop that pushes `...f(x)` for every `x` of `s`, in order. */
  function FlatMap<T, U>(s: seq<T>, f: T -> seq<U>): (r: seq<U>)
    ensures s == [] ==> r == []
  {
    if s == [] then [] else FlatMap(s[..|s| - 1], f) + f(s[|s| - 1])
  }

  lemma {:induction false} FlatMapConcat<T, U>(a: seq<T>, b: seq<T>, f: T -> seq<U>)
    ensures FlatMap(a + b, f) == FlatMap(a, f) + FlatMap(b, f)
  {
    if b == [] {
      assert a + b == a;
    } else {
      var init := b[..|b| - 1];
      assert (a + b)[..|a + b| - 1] == a + init;
      FlatMapConcat(a, init, f);
    }
  }

  /** The same loop when `f` may throw: the first failure ends it. */
  /** What holds of every output of every element holds of the whole
      flattened output. */
  lemma {:induction false} FlatMapAll<T, U>(s: seq<T>, f: T -> seq<U>, p: U -> bool)
    requires forall i, j :: 0 <= i < |s| && 0 <= j < |f(s[i])| ==> p(f(s[i])[j])
    ensures forall k :: 0 <= k < |FlatMap(s, f)| ==> p(FlatMap(s, f)[k])
  {
    if s != [] {
      var init := s[..|s| - 1];
      assert forall i :: 0 <= i < |init| ==> init[i] == s[i];
      FlatMapAll(init, f, p);
      var last := f(s[|s| - 1]);
      forall k | 0 <= k < |FlatMap(s, f)|
        ensures p(FlatMap(s, f)[k])
      {
        if k >= |FlatMap(init, f)| {
          assert FlatMap(s, f)[k] == last[k - |FlatMap(init, f)|];
        }
      }
    }
  }

  function FlatMapOrFail<T, U>(s: seq<T>, f: T -> Result<seq<U>>): (r: Result<seq<U>>)
    ensures r.Ok? <==> forall i :: 0 <= i < |s| ==> f(s[i]).Ok?
    ensures r.Err? ==> exists i :: 0 <= i < |s| && f(s[i]) == Err(r.msg) && forall j :: 0 <= j < i ==> f(s[j]).Ok?
  {
    if s == [] then Ok([])
    else
      var init := s[..|s| - 1];
      assert forall i :: 0 <= i < |init| ==> init[i] == s[i];
      match FlatMapOrFail(init, f)
      case Err(m) => Err(m)
      case Ok(prev) =>
        match f(s[|s| - 1])
        case Err(m) => Err(m)
        case Ok(msgs) => Ok(prev + msgs)
  }

  /** Once a prefix fails, the whole loop fails the same way. */
  lemma {:induction false} FlatMapOrFailErrStays<T, U>(s: seq<T>, f: T -> Result<seq<U>>, i: nat)
    requires i <= |s| && FlatMapOrFail(s[..i], f).Err?
    ensures FlatMapOrFail(s, f) == FlatMapOrFail(s[..i], f)
  {
    if i < |s| {
      FlatMapOrFailErrStays(s[..|s| - 1], f, i);
      assert s[..|s| - 1][..i] == s[..i];
    } else {
      assert s[..i] == s;
    }
  }

  /** `s.map(f)`. */
  function Map<T, U>(s: seq<T>, f: T -> U): (r: seq<U>)
    ensures |r| == |s|
    ensures forall i :: 0 <= i < |s| ==> r[i] == f(s[i])
  {
    seq(|s|, i requires 0 <= i < |s| => f(s[i]))
  }
}
