# Daimo wallet state bookkeeping, in Dafny

This project models the part of the Daimo stablecoin wallet that keeps track of
state, on the phone and on the API server, and proves what that bookkeeping
promises.

On the phone it covers the following:
- the versioned account snapshot and the `AccountManager` that stores it and notifies listeners;
- the sync loop that merges a server history result into the snapshot and decides when to sync;
- the local pending-op transform, key-slot lookup and error classification of sending;
- the onboarding page machine with its back-stack;
- the balance headline of the home screen.

On the server it covers the following:
- the coin transfer index: append, listener fan-out, per-address filter and paymaster fees;
- the payment-link ("note") index with its `confirmed → claimed | cancelled` state machine;
- the "shovel squared" table reduction;
- the derivation of push messages.

Shared by both are the deep-link format and parser, and the assertion helpers every component uses.

There is one module per source file, each in its own file:

| module | file | source |
|---|---|---|
| `Errors` | errors.dfy | `assert.ts` |
| `Decimal` | decimal.dfy | bigint `toString`, `BigInt(str)` and `padStart` |
| `Common` | common.dfy | the `@daimo/common` shapes: addresses, `EAccount`, `OpEvent`, key data |
| `AccountModel` | account.dfy | `account.ts` |
| `SendAsync` | send.dfy | `useSendAsync.ts` |
| `Sync` | sync.dfy | `sync.ts` |
| `CoinIndexer` | coin_indexer.dfy | `coinIndexer.ts` |
| `NoteIndexer` | note_indexer.dfy | `noteIndexer.ts` |
| `ShovelSquared` | shovel_squared.dfy | `shovelSquared.ts` |
| `PushNotifier` | push_notifier.dfy | `pushNotifier.ts` |
| `DaimoLink` | daimo_link.dfy | `daimoLink.ts` |
| `Onboarding` | onboarding.dfy | `OnboardingScreen.tsx` |
| `HomeScreen` | home_screen.dfy | `HomeScreen.tsx` |

Each part takes the form of its source. A class with fields that change in place becomes a Dafny `class` with `modifies` frames:
- `AccountManager`;
- the two indexers;
- the push-token registry;
- the sync scheduler's module state;
- the onboarding screen;
- the shovel tables.

Each of these methods is proved against a specification function, and the properties are proved about that function. Loops that build values become methods with loop invariants:
- `addTransfers`;
- the mark-finalized loop;
- `addNamedAccounts`;
- `attachFeeAmounts`;
- the push-message loops;
- the note index batches.

Pure code becomes functions and lemmas.

Some conventions hold throughout:
- **Addresses** are `Address(id, checksummed)`. `id` is the 160-bit number. `checksummed` says whether the text is in EIP-55 mixed case (viem `getAddress`) or lower case (`bytesToHex`). JavaScript `===` on address strings is `SameText`: the same number, written in the same case, unless the hex has no letter.
- **Thrown errors** are `Result.Err(message)`.
- **`null` and `undefined`** are `Option.None`.
- **Collaborators** the code calls but does not define are function-valued parameters. These are the name registry, the op index, `amountToDollars`, `toFixed`/`parseFloat` dollar normalisation, `guessTimestampFromNum`, and the RPC call.

## Model

| member | source | states |
|---|---|---|
| Errors.ErrorMessage | packages/daimo-common/src/assert.ts:2 | the thrown message is never empty: the given message when non-empty, else "Assertion failed" |
| Errors.Assert | packages/daimo-common/src/assert.ts:1-3 | returns normally iff the condition holds; otherwise throws the given message or "Assertion failed" |
| Errors.AssertNotNull | packages/daimo-common/src/assert.ts:5-8 | succeeds iff the value is present and then returns it unchanged; null/undefined throws the message |
| Errors.AssertUnreachable | packages/daimo-common/src/assert.ts:11-13 | always throws "Unreachable" |
| Common.GetAddress | packages/daimo-api/src/server/pushNotifier.ts:51 | viem `getAddress` keeps the address value and writes it in checksum case |
| Common.AddrText | packages/daimo-api/src/server/pushNotifier.ts:174-175 | the text of an address, used as a map key, determines the address value |
| Common.SameText | packages/daimo-api/src/contract/coinIndexer.ts:206-210 | `===` on address text implies the same address value, and for two addresses written in the same case it is equality of values |
| Decimal.NatToString | packages/daimo-mobile/src/view/screen/HomeScreen.tsx:56 | `toString` of a non-negative bigint is non-empty decimal digits with no leading zero except for 0 itself |
| Decimal.IntToString | apps/daimo-mobile/src/model/account.ts:284 | `toString` of any bigint starts with "-" exactly for negative values |
| Decimal.ParseBigInt | apps/daimo-mobile/src/model/account.ts:220 | `BigInt(str)` succeeds iff the text, with surrounding white space trimmed, is an integer literal (blank, decimal digits with at most one sign, or a `0x`/`0o`/`0b` prefix with digits of that radix); plain digit text reads as its decimal value; any other text throws `SyntaxError: Cannot convert … to a BigInt` |
| Decimal.TrimStart | packages/daimo-common/src/daimoLink.ts:152 | the leading white space and line terminators are removed: what is left is a suffix of the text that does not start with white space |
| Decimal.TrimEnd | packages/daimo-common/src/daimoLink.ts:152 | the trailing white space is removed: what is left is a prefix of the text that does not end with white space |
| Decimal.TrimStartDropsWhiteSpace | packages/daimo-common/src/daimoLink.ts:152 | what the front trim drops is white space only, and it keeps the rest of the text unchanged |
| Decimal.TrimEndDropsWhiteSpace | packages/daimo-common/src/daimoLink.ts:152 | what the back trim drops is white space only, and it keeps the rest of the text unchanged |
| Decimal.ParseIgnoresWhiteSpace | packages/daimo-common/src/daimoLink.ts:152 | `BigInt` accepts text surrounded by white space iff it accepts the text alone, and reads the same value |
| Decimal.ParseNonDecimal | packages/daimo-common/src/daimoLink.ts:152 | a `0x`, `0o` or `0b` prefix reads the digits in base 16, 8 or 2, so a request id `0x1F` becomes 31 |
| Decimal.ParseSigned | packages/daimo-common/src/daimoLink.ts:152 | one `-` or `+` before decimal digits gives the negated or plain value |
| Decimal.SignedRadixRefused | packages/daimo-common/src/daimoLink.ts:152 | a sign before a `0x`, `0o` or `0b` prefix throws |
| Decimal.PadStart | packages/daimo-mobile/src/view/screen/HomeScreen.tsx:56 | `padStart` keeps the text as a suffix, fills the front with the pad character, and reaches at least the target length |
| Decimal.NatToStringValue | packages/daimo-mobile/src/view/screen/HomeScreen.tsx:56 | the digits printed for n read back as n |
| Decimal.ParseIntToString | apps/daimo-mobile/src/model/account.ts:250 | the stored balance round-trips: `BigInt(x.toString()) == x` for every bigint x |
| AccountModel.ToEAccount | apps/daimo-mobile/src/model/account.ts:71-73 | the contact for an account is its own address and name, with no label |
| AccountModel.ParseAccount | apps/daimo-mobile/src/model/account.ts:200-268 | empty/missing text and versions below 8 load as null; a version at or above 8 other than 8 or 9 throws; loaded addresses are checksummed |
| AccountModel.SerializeAccount | apps/daimo-mobile/src/model/account.ts:270-302 | null saves as "", any account saves at storage version 9 with its balance as decimal text |
| AccountModel.SerializeParseRoundTrip | apps/daimo-mobile/src/model/account.ts:241-299 | loading what was saved gives back the same account (addresses in checksum case) |
| AccountModel.MigrateV8 | apps/daimo-mobile/src/model/account.ts:209-236 | a version-8 record migrates with no pending rotations, pending notes defaulting to [], preVerificationGas "0", the addresses in checksum case, the balance parsed, and every other field (names, keys, chain, blocks, transfers, requests, contacts, gas prices, push token) carried over equal |
| AccountModel.LoadSaveStable | apps/daimo-mobile/src/model/account.ts:152-156 | the start-up load-then-save brings a loadable record to version 9 and a second one changes nothing |
| AccountModel.Notifications | apps/daimo-mobile/src/model/account.ts:175-177 | one call per registered listener, in registration order, each with the new account |
| AccountModel.NotifiedExactlyOnce | apps/daimo-mobile/src/model/account.ts:175-177 | with a set of listeners, each registered listener is called exactly once and no other is called |
| AccountModel.SaveBeforeNotify | apps/daimo-mobile/src/model/account.ts:171-177 | in one `setCurrentAccount`, every listener call comes after the contact cache and the save |
| AccountModel.AccountManager.Empty | apps/daimo-mobile/src/model/account.ts:147-156 | a fresh manager holds the stored value, no current account, no listeners and no effects yet |
| AccountModel.AccountManager.AddListener | apps/daimo-mobile/src/model/account.ts:158-160 | set semantics: adding a present listener changes nothing, else appends it; nothing else changes |
| AccountModel.AccountManager.RemoveListener | apps/daimo-mobile/src/model/account.ts:162-164 | the listener is gone, the others keep their order, the set stays duplicate-free |
| AccountModel.AccountManager.SetCurrentAccount | apps/daimo-mobile/src/model/account.ts:166-178 | the current account is the new one, the store holds its serialized form, and the trace gains cache, save, then one call per listener |
| AccountModel.AccountManager.StoreAccount | apps/daimo-mobile/src/model/account.ts:171-174 | caches the contacts (when non-null), sets the current account and saves its serialized form |
| AccountModel.AccountManager.NotifyListeners | apps/daimo-mobile/src/model/account.ts:175-177 | the loop appends exactly `Notifications(listeners, account)` to the trace |
| AccountModel.DistinctFilter | apps/daimo-mobile/src/model/account.ts:163 | deleting from a duplicate-free listener list keeps it duplicate-free |
| AccountModel.NewAccountManager | apps/daimo-mobile/src/model/account.ts:137-156 | construction fails iff parsing the stored text throws; otherwise the current account is the parsed one and the store holds it re-serialized |
| SendAsync.FindKeySlot | apps/daimo-mobile/src/action/useSendAsync.ts:48-50 | the slot of the first key whose public key matches, or none iff no key matches |
| SendAsync.KeySlot | apps/daimo-mobile/src/action/useSendAsync.ts:47-51 | no account gives no slot; otherwise the slot of the account's enclave key |
| SendAsync.NewContacts | apps/daimo-mobile/src/action/useSendAsync.ts:94-97 | the filtered supplied contacts are never more than those supplied |
| SendAsync.NewContactsAreNew | apps/daimo-mobile/src/action/useSendAsync.ts:94-97 | every kept contact was supplied and matches no existing address text |
| SendAsync.NewContactsCover | apps/daimo-mobile/src/action/useSendAsync.ts:94-97 | every supplied contact is kept or already has an address match |
| SendAsync.TransferAccountSpec | apps/daimo-mobile/src/action/useSendAsync.ts:99-106 | the history is the old one with the pending op appended; contacts are the old ones then the new ones; every other field is unchanged |
| SendAsync.TransferTransform.constructor | apps/daimo-mobile/src/action/useSendAsync.ts:90 | the closure captures the supplied contacts |
| SendAsync.TransferTransform.Apply | apps/daimo-mobile/src/action/useSendAsync.ts:91-107 | succeeds iff the op is a transfer, createLink or claimLink; then it reassigns the captured contacts to the new ones and returns the transformed account |
| SendAsync.TransferAccount | apps/daimo-mobile/src/action/useSendAsync.ts:99-107 | the pending op is appended to the recent transfers, the contacts only grow, and no other field changes |
| SendAsync.LoadOpSender | apps/daimo-mobile/src/action/useSendAsync.ts:147-160 | succeeds iff (no key slot) equals usePasskey; then it uses the passkey signer or the device-key signer for that slot |
| SendAsync.ErrorStatus | apps/daimo-mobile/src/action/useSendAsync.ts:216-229 | the failure message, by priority: device removed when there is no slot; a signer NamedError's own message; offline for a network failure; else the generic message |
| SendAsync.Send | apps/daimo-mobile/src/action/useSendAsync.ts:188-233 | returns the op hash with loading, signing, accepted statuses iff every step succeeds; no slot and no passkey throws "No key slot or passkey"; a signer that fails to load rethrows its message after the loading status, an init error is rethrown after the loading status, a failed send rethrows its error after the loading and signing statuses; every failure ends with exactly one error status |
| Sync.InsertLog | apps/daimo-mobile/src/sync/sync.ts:314-317 | inserting a log adds exactly that log to the multiset |
| Sync.InsertLogSorted | apps/daimo-mobile/src/sync/sync.ts:314-317 | insertion keeps the list sorted by (block, log index) |
| Sync.SortLogs | apps/daimo-mobile/src/sync/sync.ts:314-317 | the sorted logs are ordered by (block, log index) and a permutation of the input |
| Sync.ToOpEvents | apps/daimo-mobile/src/sync/sync.ts:320-338 | one op per log, in the same order |
| Sync.FinalizeIf | apps/daimo-mobile/src/sync/sync.ts:204-206 | only the status changes, to finalized exactly when the block is truthy and at most the finalized block |
| Sync.FinalizeAll | apps/daimo-mobile/src/sync/sync.ts:203-207 | the loop applies the finalize step to every op, keeping length and order |
| Sync.OldTransfersAfterFinalize | apps/daimo-mobile/src/sync/sync.ts:190-212 | the old list, as the pending filter sees it after the shared objects were finalized, keeps its length |
| Sync.SyncFindSameOp | apps/daimo-mobile/src/sync/sync.ts:278-284 | a missing hash matches nothing; otherwise it finds an op with that hash iff one exists |
| Sync.Added | apps/daimo-mobile/src/sync/sync.ts:291-295 | the appended contacts come from the found list and have address texts not yet seen |
| Sync.MissingKeysFailSync | apps/daimo-mobile/src/sync/sync.ts:144-158 | an RPC answer without a key list fails the sync with the `TypeError`, even when no key rotation is pending |
| Sync.StillPendingRotations | apps/daimo-mobile/src/sync/sync.ts:237-241 | the rotation filter throws exactly when there are pending rotations and the result has no key list |
| Sync.AddTransfers | apps/daimo-mobile/src/sync/sync.ts:305-341 | the old list followed by the ops of the sorted logs |
| Sync.MarkFinalized | apps/daimo-mobile/src/sync/sync.ts:203-207 | the loop's result is `FinalizeAll` of its input |
| Sync.AddNamedAccounts | apps/daimo-mobile/src/sync/sync.ts:287-302 | the loop's result is the old contacts followed by `Added` |
| Sync.ApplySync | apps/daimo-mobile/src/sync/sync.ts:178-276 | the step-by-step merge equals `ApplySyncSpec`, about which the lemmas below are proved |
| Sync.ApplySyncSpec | apps/daimo-mobile/src/sync/sync.ts:178-276 | throws when the result is for another address; otherwise it throws iff the result is not stale and the rotation filter or the balance parse throws; a success keeps the address and never moves the finalized block back |
| Sync.MergedTransfers | apps/daimo-mobile/src/sync/sync.ts:196-221 | no fetched log is lost: the merged list is at least as long as the logs |
| Sync.StaleResultIgnored | apps/daimo-mobile/src/sync/sync.ts:180-186 | a result whose finalized block is behind the account's returns the account unchanged |
| Sync.WrongAddressRejected | apps/daimo-mobile/src/sync/sync.ts:179 | a result for another address throws |
| Sync.MergedKeepsOld | apps/daimo-mobile/src/sync/sync.ts:190-207 | the merged list starts with the old transfers whose block is truthy and before `sinceBlockNum`, in order and changed only in status |
| Sync.MergedAppendsLogs | apps/daimo-mobile/src/sync/sync.ts:196-207 | after them come the fetched logs sorted by (block, log index) as transfers, finalized iff their block is non-zero and at most the finalized block, else confirmed |
| Sync.PendingSurvival | apps/daimo-mobile/src/sync/sync.ts:210-221 | an old pending op is re-appended iff no merged op has its hash (a missing hash matches none) and its deadline of 120 s is still ahead of the last block time |
| Sync.FinalizedPrefix | apps/daimo-mobile/src/sync/sync.ts:203-207 | every op with a truthy block at or before the finalized block is finalized |
| Sync.NamedAccountsMerge | apps/daimo-mobile/src/sync/sync.ts:287-302 | the old contacts are a preserved prefix; each appended contact is a found one with a new address; no address is appended twice; every found address ends up present |
| Sync.AddedDistinct | apps/daimo-mobile/src/sync/sync.ts:292-294 | no address text is appended twice |
| Sync.AddedCovers | apps/daimo-mobile/src/sync/sync.ts:291-295 | together with the seen ones, the appended contacts carry every found address text |
| Sync.ApplySyncFields | apps/daimo-mobile/src/sync/sync.ts:223-261 | balance, last block, timestamps, gas constants and keys come from the result; contacts are replaced when syncing from 0, else merged; rotations follow the add/remove rule; all other fields are unchanged |
| Sync.SyncInterval | apps/daimo-mobile/src/sync/sync.ts:57-81 | 1 s iff there are pending ops or the app is online with failed attempts, else 10 s |
| Sync.Decide | apps/daimo-mobile/src/sync/sync.ts:83-94 | from scratch syncs at once; a tick is skipped iff no push arrived in the last 10 s and the last sync is within the interval |
| Sync.StatusAfterFailures | apps/daimo-mobile/src/sync/sync.ts:118-121 | offline iff more than 3 failed attempts |
| Sync.ValidateResult | apps/daimo-mobile/src/sync/sync.ts:165-175 | a result is accepted iff address and `sinceBlockNum` match, last block ≥ `sinceBlockNum`, last block time > 0 and the paymaster text has even length |
| Sync.FetchSync | apps/daimo-mobile/src/sync/sync.ts:136-176 | asks from block 0 when from scratch, else from the account's finalized block; succeeds iff the RPC answers with a key list and the answer passes the checks, and then returns that answer, which names the account's address and has a positive timestamp and a last block not before the start; an RPC error is passed on unchanged; an answer without a key list fails with the `TypeError` of reading its length |
| Sync.SyncAccount | apps/daimo-mobile/src/sync/sync.ts:106-132 | fetching and then applying is `Synced` (with `fromScratch` this is `hydrateAccount`) |
| Sync.Scheduler.constructor | apps/daimo-mobile/src/sync/sync.ts:50-51 | both timestamps start at 0, online, with no failures |
| Sync.Scheduler.SyncAfterPushNotification | apps/daimo-mobile/src/sync/sync.ts:53-55 | records the push time and changes nothing else |
| Sync.Scheduler.Resync | apps/daimo-mobile/src/sync/sync.ts:98-126 | throws iff there is no account; otherwise it records the sync time; on success it saves the synced account via the manager; on failure it counts the failure and sets the status from the count |
| Sync.Scheduler.MaybeSync | apps/daimo-mobile/src/sync/sync.ts:64-95 | no account does nothing; a skipped tick returns false and changes nothing; any other tick records the sync time and returns whether `Synced` succeeded; on success the manager holds the synced account and the network state is unchanged; on failure the failure count grows by one, the status follows it and the manager is unchanged |
| Sync.Scheduler.StartSync | apps/daimo-mobile/src/sync/sync.ts:28-39 | with no account nothing changes; otherwise the account is synced from scratch and the sync time recorded; on success the synced account is saved and the status and failure count are kept; a first sync that does not succeed leaves the account as it was and the app offline with 3 failed attempts |
| Sync.OfflineAfterFourFailures | apps/daimo-mobile/src/sync/sync.ts:115-123 | from a clean online state, `n` failed syncs in a row show offline iff `n > 3` |
| Sync.FailRunState | apps/daimo-mobile/src/sync/sync.ts:115-123 | after `n > 0` failures in a row the count has grown by `n` and the status is the count's |
| Sync.OfflineStaysAfterStart | apps/daimo-mobile/src/sync/sync.ts:28-39 | after a failed first sync marks the app offline with 3 failures, further failures keep it offline |
| Sync.HasPendingOps | apps/daimo-mobile/src/sync/sync.ts:57-62 | true iff some recent transfer is pending or a key rotation is pending |
| Sync.Synced | apps/daimo-mobile/src/sync/sync.ts:106-110 | a fetch error is passed on; a success comes from a successful fetch and keeps the address and never moves the finalized block back |
| CoinIndexer.RowToTransfer | packages/daimo-api/src/contract/coinIndexer.ts:65-77 | a loaded row keeps its numbers and has every address checksummed |
| CoinIndexer.CoinIndexer.constructor | packages/daimo-api/src/contract/coinIndexer.ts:35-40 | no transfers, no listeners, no calls |
| CoinIndexer.CoinIndexer.Load | packages/daimo-api/src/contract/coinIndexer.ts:42-85 | appends the converted batch after the old transfers and hands exactly that batch to each listener in order |
| CoinIndexer.CoinIndexer.Notify | packages/daimo-api/src/contract/coinIndexer.ts:84 | one call per listener with the batch |
| CoinIndexer.CoinIndexer.PipeAllTransfers | packages/daimo-api/src/contract/coinIndexer.ts:100-103 | first calls the listener with every transfer so far, then registers it |
| CoinIndexer.CoinIndexer.AddListener | packages/daimo-api/src/contract/coinIndexer.ts:106-108 | appends the listener, even one already present |
| CoinIndexer.CoinIndexer.RemoveListener | packages/daimo-api/src/contract/coinIndexer.ts:111-113 | drops every registration of the listener and keeps every other registration |
| CoinIndexer.CoinIndexer.FilterTransfers | packages/daimo-api/src/contract/coinIndexer.ts:119-149 | the three filters, the conversion to events, then fee attachment |
| CoinIndexer.WithoutCounts | packages/daimo-api/src/contract/coinIndexer.ts:112 | after removal the listener occurs zero times and every other listener as often as before |
| CoinIndexer.RemovedNotCalled | packages/daimo-api/src/contract/coinIndexer.ts:111-113 | a removed listener receives nothing from later loads |
| CoinIndexer.TouchingLogs | packages/daimo-api/src/contract/coinIndexer.ts:128-130 | exactly the transfers from or to the address |
| CoinIndexer.SinceLogs | packages/daimo-api/src/contract/coinIndexer.ts:131-135 | exactly the logs at or after `sinceBlockNum` when it is given and non-zero |
| CoinIndexer.HashLogs | packages/daimo-api/src/contract/coinIndexer.ts:136-140 | exactly the logs whose transaction is listed, when a list is given |
| CoinIndexer.Relevant | packages/daimo-api/src/contract/coinIndexer.ts:128-140 | every kept log touches the address and lies in the window; every such log is kept |
| CoinIndexer.ToOpEvent | packages/daimo-api/src/contract/coinIndexer.ts:154-190 | a confirmed transfer with the log's parties, amount, block, hashes and index; an op hash iff the op index knows the log, and then it is that user op's hash |
| CoinIndexer.FilterTransfersShape | packages/daimo-api/src/contract/coinIndexer.ts:119-149 | every event returned is a confirmed transfer from or to the address, within the block bound, and not a paymaster leg; never more than the stored logs |
| CoinIndexer.FilterTransfersComplete | packages/daimo-api/src/contract/coinIndexer.ts:119-149 | every stored log from or to the address inside the window whose event is not a paymaster leg is returned, with its op's net fee |
| CoinIndexer.WithFees | packages/daimo-api/src/contract/coinIndexer.ts:214-227 | no output event has the paymaster as a party; each output is an input event with only its fee set to the net fee of its op; with fees cleared, the output is exactly the non-paymaster input events in input order |
| CoinIndexer.WithFeesComplete | packages/daimo-api/src/contract/coinIndexer.ts:214-227 | every input event without the paymaster as a party is in the output, with its op's net fee |
| CoinIndexer.NetFee | packages/daimo-api/src/contract/coinIndexer.ts:201-212 | when no event of the op is a refund and no amount is negative, the fee is not negative |
| CoinIndexer.FeeFor | packages/daimo-api/src/contract/coinIndexer.ts:221-225 | an event without an op hash, or whose op has no events, gets fee 0 |
| CoinIndexer.AttachFeeAmounts | packages/daimo-api/src/contract/coinIndexer.ts:196-230 | the map-building loop and filter give `WithFees` |
| CoinIndexer.NetFeeConcat | packages/daimo-api/src/contract/coinIndexer.ts:201-212 | fees add up over consecutive batches of events |
| CoinIndexer.NetFeeOthers | packages/daimo-api/src/contract/coinIndexer.ts:202 | events of other ops, or without an op hash, contribute nothing to a fee |
| CoinIndexer.FeeOfSponsoredTransfer | packages/daimo-api/src/contract/coinIndexer.ts:206-227 | a transfer with a fee leg and a refund leg comes out alone, carrying fee minus refund |
| NoteIndexer.Note.constructor | packages/daimo-api/src/contract/noteIndexer.ts:87-97 | a new note is confirmed, unclaimed, with the given dollars, link and sender |
| NoteIndexer.Views | packages/daimo-api/src/contract/noteIndexer.ts:20 | the note states, key by key |
| NoteIndexer.LogCoordinate.constructor | packages/daimo-api/src/contract/noteIndexer.ts:13-16 | holds the log index and transaction hash |
| NoteIndexer.ToCreatedLog | packages/daimo-api/src/contract/noteIndexer.ts:66-77 | creation rows have both addresses checksummed |
| NoteIndexer.ToRedeemedLog | packages/daimo-api/src/contract/noteIndexer.ts:129-141 | redemption rows leave `from` lower case and checksum redeemer and owner |
| NoteIndexer.NewView | packages/daimo-api/src/contract/noteIndexer.ts:86-97 | a created note is confirmed, unclaimed, with `amountToDollars(amount)` |
| NoteIndexer.NewLink | packages/daimo-api/src/contract/noteIndexer.ts:89-95 | its link is a note link naming the owner, the sender's text and the dollars |
| NoteIndexer.DupeMeaning | packages/daimo-api/src/contract/noteIndexer.ts:80-84 | a creation batch fails exactly when one of its owners was already known |
| NoteIndexer.Dupe | packages/daimo-api/src/contract/noteIndexer.ts:80-84 | a batch flagged as a duplicate has an owner already known |
| NoteIndexer.Inserted | packages/daimo-api/src/contract/noteIndexer.ts:78-105 | the states after a creation batch keep every old key |
| NoteIndexer.InsertedKeepsExisting | packages/daimo-api/src/contract/noteIndexer.ts:80-98 | a creation never overwrites a note that existed before the batch |
| NoteIndexer.InsertedAddsOwners | packages/daimo-api/src/contract/noteIndexer.ts:86-98 | after a batch every owner in it is known, and the new ones are confirmed notes |
| NoteIndexer.SameBatchDuplicatePasses | packages/daimo-api/src/contract/noteIndexer.ts:78-105 | two creations of the same new owner in one batch both pass the check; the later one's note is kept |
| NoteIndexer.Redeem | packages/daimo-api/src/contract/noteIndexer.ts:147-164 | a missing note, a non-confirmed note or a dollar mismatch throws, in that order; otherwise only that note changes, to cancelled when redeemer equals `from`, else claimed, with the claimer recorded |
| NoteIndexer.RedeemAll | packages/daimo-api/src/contract/noteIndexer.ts:129-167 | redeeming a batch never adds or drops a note key |
| NoteIndexer.TerminalStays | packages/daimo-api/src/contract/noteIndexer.ts:150-163 | no redemption leaves a terminal state or changes a note's dollars |
| NoteIndexer.CleanBatchRedeemsConfirmed | packages/daimo-api/src/contract/noteIndexer.ts:148-164 | in a batch without errors, each log redeemed a note that was confirmed before the batch, and the note is now terminal |
| NoteIndexer.CleanBatchRedeemsOnce | packages/daimo-api/src/contract/noteIndexer.ts:150-151 | in a batch without errors, no two logs redeem the same owner |
| NoteIndexer.SelfRedeemRecordedAsClaimed | packages/daimo-api/src/contract/noteIndexer.ts:134-163 | a sender reclaiming their own note whose address has a hex letter is recorded as claimed, not cancelled |
| NoteIndexer.NewNote | packages/daimo-api/src/contract/noteIndexer.ts:85-97 | a fresh note object built from the creation |
| NoteIndexer.NoteIndexer.constructor | packages/daimo-api/src/contract/noteIndexer.ts:19-27 | no notes, no listeners, no calls |
| NoteIndexer.NoteIndexer.AddListener | packages/daimo-api/src/contract/noteIndexer.ts:42-44 | appends the listener |
| NoteIndexer.NoteIndexer.GetNoteStatus | packages/daimo-api/src/contract/noteIndexer.ts:179-184 | the stored note for the owner, or null iff it was never created |
| NoteIndexer.NoteIndexer.GetNotebyLogCoordinate | packages/daimo-api/src/contract/noteIndexer.ts:170-176 | always null, because the lookup key is a new object |
| NoteIndexer.NoteIndexer.CreateOne | packages/daimo-api/src/contract/noteIndexer.ts:85-103 | stores a fresh note under its owner; only that key's state changes, to the new note's |
| NoteIndexer.NoteIndexer.StoreStep | packages/daimo-api/src/contract/noteIndexer.ts:78-104 | a creation whose check passed against the pre-batch notes stores its note; one whose check failed stores nothing |
| NoteIndexer.NoteIndexer.CheckRedeem | packages/daimo-api/src/contract/noteIndexer.ts:147-154 | fails iff `Redeem` fails, with its message |
| NoteIndexer.NoteIndexer.RedeemOne | packages/daimo-api/src/contract/noteIndexer.ts:157-165 | updates the stored note object in place; the states become `Redeem`'s result |
| NoteIndexer.NoteIndexer.RedeemLog | packages/daimo-api/src/contract/noteIndexer.ts:142-166 | one callback: the checks, then the in-place update, or the failure with states unchanged |
| NoteIndexer.NoteIndexer.Load | packages/daimo-api/src/contract/noteIndexer.ts:29-40 | creations before redemptions; fails iff either batch fails, keeping what earlier steps stored; on success each listener is called once with created then redeemed notes |
| NoteIndexer.NoteIndexer.Notify | packages/daimo-api/src/contract/noteIndexer.ts:38-39 | one call per listener with the notes |
| NoteIndexer.NoteIndexer.LoadCreated | packages/daimo-api/src/contract/noteIndexer.ts:46-106 | the states become `Inserted`; fails with "dupe NoteCreated" iff `Dupe`; otherwise it returns the new notes in order |
| NoteIndexer.NoteIndexer.CheckDupes | packages/daimo-api/src/contract/noteIndexer.ts:80 | every check runs against the notes before the batch |
| NoteIndexer.NoteIndexer.StoreAll | packages/daimo-api/src/contract/noteIndexer.ts:85-105 | the stores of a batch give `Inserted`, with only fresh notes added |
| NoteIndexer.NoteIndexer.LoadRedeemed | packages/daimo-api/src/contract/noteIndexer.ts:108-168 | the states become `RedeemAll`'s; fails iff a redemption fails, with the first message; otherwise returns the stored notes in order |
| ShovelSquared.Keys | packages/daimo-api/src/server/shovelSquared.ts:52 | exactly the keys present in a table |
| ShovelSquared.InsertIfAbsent | packages/daimo-api/src/server/shovelSquared.ts:41-52 | conflict-do-nothing insert: old rows stay as a prefix and each added row is a candidate with a new key |
| ShovelSquared.InsertIfAbsentKeys | packages/daimo-api/src/server/shovelSquared.ts:41-52 | afterwards the table holds exactly the old keys and the candidates' keys |
| ShovelSquared.InsertTwice | packages/daimo-api/src/server/shovelSquared.ts:38-73 | two inserts in a row keep the old rows first and add only rows with new keys |
| ShovelSquared.InsertIfAbsentUnique | packages/daimo-api/src/server/shovelSquared.ts:155 | the unique key survives the insert |
| ShovelSquared.InsertIfAbsentPresent | packages/daimo-api/src/server/shovelSquared.ts:155 | an insert whose keys are all present changes nothing |
| ShovelSquared.InsertIfAbsentIdempotent | packages/daimo-api/src/server/shovelSquared.ts:155 | repeating the same insert adds nothing |
| ShovelSquared.FilterIdempotent | packages/daimo-api/src/server/shovelSquared.ts:78-101 | deleting again removes nothing |
| ShovelSquared.MaxBlockNum | packages/daimo-api/src/server/shovelSquared.ts:24-28 | the largest block number of the chain's rows, or 0 when it has none |
| ShovelSquared.Reduced | packages/daimo-api/src/server/shovelSquared.ts:19-159 | the names table is untouched, and the existing block and transfer rows stay as a prefix |
| ShovelSquared.EthBlocks | packages/daimo-api/src/server/shovelSquared.ts:41-52 | the proposed block rows lie in the range and on the chain |
| ShovelSquared.Erc20Blocks | packages/daimo-api/src/server/shovelSquared.ts:58-69 | the proposed block rows lie in the range and on the chain |
| ShovelSquared.FromEth | packages/daimo-api/src/server/shovelSquared.ts:120-136 | native rows get an odd sort index and no token |
| ShovelSquared.FromErc20 | packages/daimo-api/src/server/shovelSquared.ts:138-154 | token rows get an even sort index and the log address as token |
| ShovelSquared.TransferCands | packages/daimo-api/src/server/shovelSquared.ts:120-154 | every candidate lies in the range and on the chain |
| ShovelSquared.DoneRangeUnchanged | packages/daimo-api/src/server/shovelSquared.ts:24-32 | a range already covered by the chain's rows changes nothing |
| ShovelSquared.BlocksBackfilled | packages/daimo-api/src/server/shovelSquared.ts:41-69 | existing block rows are kept; added ones have new keys, lie in the range and have time `2·block + offset` |
| ShovelSquared.DeletePassKeepsNamed | packages/daimo-api/src/server/shovelSquared.ts:79-100 | after the delete pass every selected raw row in the range has a known party, and rows outside the range remain |
| ShovelSquared.SortIdxNeverCollides | packages/daimo-api/src/server/shovelSquared.ts:127-145 | a native and a token row never share a key |
| ShovelSquared.TransfersStayUnique | packages/daimo-api/src/server/shovelSquared.ts:105-157 | the daimo_transfers key stays unique and every added row lies in the range |
| ShovelSquared.ReducedIdempotent | packages/daimo-api/src/server/shovelSquared.ts:19-159 | re-running the load on the same range changes nothing |
| ShovelSquared.KeptBlocksKnown | packages/daimo-api/src/server/shovelSquared.ts:41-89 | the native rows kept by the delete propose no block the full table did not |
| ShovelSquared.KeptErc20BlocksKnown | packages/daimo-api/src/server/shovelSquared.ts:58-100 | the same for token rows |
| ShovelSquared.Database.Load | packages/daimo-api/src/server/shovelSquared.ts:19-159 | the statements in order give `Reduced`; the names table is untouched |
| PushNotifier.Cached | packages/daimo-api/src/server/pushNotifier.ts:174-183 | the address holds the token afterwards; a token already there changes nothing; otherwise it is appended to the address's list; no other address changes |
| PushNotifier.CachedValid | packages/daimo-api/src/server/pushNotifier.ts:174-183 | no address holds a token twice, and caching the same token again is a no-op |
| PushNotifier.CachedAppends | packages/daimo-api/src/server/pushNotifier.ts:182 | a new token is appended after the address's old ones |
| PushNotifier.CachedAll | packages/daimo-api/src/server/pushNotifier.ts:50-52 | every loaded row's checksummed address is registered |
| PushNotifier.PushMessages | packages/daimo-api/src/server/pushNotifier.ts:304-320 | no message iff the address has no entry; otherwise one message to all its tokens with badge 1 |
| PushNotifier.TransferSide | packages/daimo-api/src/server/pushNotifier.ts:185-229 | at most one message, present iff the address has tokens and the counterparty is neither a payment link nor the paymaster; its title and body follow the sign and the request flag |
| PushNotifier.OneTransferMessages | packages/daimo-api/src/server/pushNotifier.ts:104-148 | each transfer yields at most two messages |
| PushNotifier.TransferMessagesBound | packages/daimo-api/src/server/pushNotifier.ts:102-151 | a batch yields at most two messages per transfer |
| PushNotifier.TransferMessages | packages/daimo-api/src/server/pushNotifier.ts:102-151 | every transfer message has badge 1 and carries its transaction hash |
| PushNotifier.OneTransfer | packages/daimo-api/src/server/pushNotifier.ts:109-148 | a transfer missing a party, of zero value or without a hash yields nothing; any other yields the sender's messages, then the receiver's |
| PushNotifier.TransferTitles | packages/daimo-api/src/server/pushNotifier.ts:210-218 | the sender sees "Sent $d"; the receiver sees "Received $d" and a body naming the sender, "fulfilled your … request" for a request payment |
| PushNotifier.LinkAndPaymasterSilent | packages/daimo-api/src/server/pushNotifier.ts:201-207 | a payment-link or paymaster counterparty gives that side no message |
| PushNotifier.NoteOpMessages | packages/daimo-api/src/server/pushNotifier.ts:236-273 | fails an assertion iff a claim has no claimer or is by the sender, or a cancellation has no claimer or one other than the sender; a confirmed note tells the sender "Sent $d" / "You sent d SYM to a payment link"; a cancellation tells the sender "$d claimed" / "You cancelled your d SYM payment link"; messages go only to the sender's or the claimer's tokens |
| PushNotifier.NoteMessages | packages/daimo-api/src/server/pushNotifier.ts:231-278 | the batch succeeds iff every update does; a failure is an assertion failure |
| PushNotifier.ClaimTellsSenderThenClaimer | packages/daimo-api/src/server/pushNotifier.ts:242-261 | a claim messages the sender "$d claimed" first, then the claimer "Received $d" |
| PushNotifier.KeyChangeMessages | packages/daimo-api/src/server/pushNotifier.ts:283-298 | deployment key logs are silent; others tell the account "<label> added" or "<label> removed" |
| PushNotifier.KeyRotationMessagesBound | packages/daimo-api/src/server/pushNotifier.ts:280-302 | at most one message per key change |
| PushNotifier.KeyRotationMessages | packages/daimo-api/src/server/pushNotifier.ts:280-302 | every key-change message has badge 1 and no transaction hash |
| PushNotifier.Notifier.constructor | packages/daimo-api/src/server/pushNotifier.ts:28 | the token map starts empty |
| PushNotifier.Notifier.CachePushToken | packages/daimo-api/src/server/pushNotifier.ts:174-183 | the map becomes `Cached` and stays duplicate-free |
| PushNotifier.Notifier.Init | packages/daimo-api/src/server/pushNotifier.ts:42-55 | the stored rows are cached in order |
| PushNotifier.Notifier.Register | packages/daimo-api/src/server/pushNotifier.ts:154-172 | a non-Expo token changes nothing; otherwise the token is cached and one welcome message is sent to it |
| PushNotifier.Notifier.GetPushMessagesFromTransfers | packages/daimo-api/src/server/pushNotifier.ts:102-151 | the loop equals `TransferMessages` |
| PushNotifier.Notifier.GetPushMessagesFromNoteOps | packages/daimo-api/src/server/pushNotifier.ts:231-278 | the loop equals `NoteMessages`: the first failing update throws |
| PushNotifier.Notifier.GetPushMessagesFromKeyRotations | packages/daimo-api/src/server/pushNotifier.ts:280-302 | the loop equals `KeyRotationMessages` |
| DaimoLink.Split | packages/daimo-common/src/daimoLink.ts:138 | `split` always gives at least one part |
| DaimoLink.SuffixAfterLastPrefix | packages/daimo-common/src/daimoLink.ts:129-136 | no suffix iff no prefix matches; otherwise the last matching prefix decides |
| DaimoLink.ParseDaimoLink | packages/daimo-common/src/daimoLink.ts:112-126 | `exp+daimo://` links and links with no known prefix parse to null |
| DaimoLink.ParseDaimoLinkInner | packages/daimo-common/src/daimoLink.ts:128-205 | a link with no known prefix gives null without throwing |
| DaimoLink.FormatDaimoLinkInner | packages/daimo-common/src/daimoLink.ts:73-110 | every link is written as the base, "/", then the word naming its kind (account, request, note or settings) |
| DaimoLink.ParseParts | packages/daimo-common/src/daimoLink.ts:138-205 | a parsed link's kind is the first path part; an unknown first part gives null; only request and note paths can throw |
| DaimoLink.SplitJoin | packages/daimo-common/src/daimoLink.ts:138 | splitting joined parts gives them back when no part holds the separator |
| DaimoLink.LastPrefixSuffix | packages/daimo-common/src/daimoLink.ts:130-136 | a link written with a prefix yields the text after it when later prefixes agree |
| DaimoLink.RecognisedSuffix | packages/daimo-common/src/daimoLink.ts:113-136 | a link written on a recognised base is not a development link and yields its path |
| DaimoLink.DirectBaseRecognised | packages/daimo-common/src/daimoLink.ts:69-71 | the direct `daimo://` base is recognised whatever the app's base is |
| DaimoLink.DefaultBaseRecognised | packages/daimo-common/src/daimoLink.ts:9-11 | the development base is recognised |
| DaimoLink.PathParts | packages/daimo-common/src/daimoLink.ts:73-110 | every link formats to at least one path part |
| DaimoLink.FormatIsBasePlusPath | packages/daimo-common/src/daimoLink.ts:73-110 | every format is the base, "/", then its parts joined by "/" |
| DaimoLink.FormatParseRoundTrip | packages/daimo-common/src/daimoLink.ts:73-205 | formatting a link on a recognised base and parsing it gives the same link back (parts without "/", normalised dollars) |
| DaimoLink.PartsRoundTrip | packages/daimo-common/src/daimoLink.ts:138-205 | the joined parts split back and parse to the link |
| DaimoLink.AppLinksRoundTrip | packages/daimo-common/src/daimoLink.ts:64-71 | both the direct and the development forms parse back to the link |
| DaimoLink.AccountNeedsTwoParts | packages/daimo-common/src/daimoLink.ts:141-145 | an account path with other than two parts gives null |
| DaimoLink.RequestAccepted | packages/daimo-common/src/daimoLink.ts:146-156 | an accepted request had four parts, a positive amount and dollars other than "0.00" |
| DaimoLink.NoteShapes | packages/daimo-common/src/daimoLink.ts:158-193 | four parts give a v1 note with a private key iff there is a `#` part; three give a v2 note; more than one `#` or another count gives null |
| DaimoLink.SplitCount | packages/daimo-common/src/daimoLink.ts:166-182 | text splits into several parts exactly when it holds the separator |
| DaimoLink.SettingsScreens | packages/daimo-common/src/daimoLink.ts:195-201 | a settings path with a second part parses iff it names add-device or add-passkey |
| Onboarding.Next | apps/daimo-mobile/src/view/screen/onboarding/OnboardingScreen.tsx:144-195 | throws iff the selection or invite page gets no argument, or the invite page gets no testnet flag; only the last two pages complete; only the invite page sets the chain, to the test chain iff testnet |
| Onboarding.Depth | apps/daimo-mobile/src/view/screen/onboarding/OnboardingScreen.tsx:43-53 | pages are ranked 0 to 6 |
| Onboarding.NextMovesForward | apps/daimo-mobile/src/view/screen/onboarding/OnboardingScreen.tsx:156-188 | every "next" moves strictly deeper, so no page is revisited |
| Onboarding.EnclavePagesOnlyOnAndroid | apps/daimo-mobile/src/view/screen/onboarding/OnboardingScreen.tsx:163-177 | the enclave pages are entered only on Android, and on Android flow selection and the invite page never bypass them |
| Onboarding.SelectionRoutes | apps/daimo-mobile/src/view/screen/onboarding/OnboardingScreen.tsx:160-170 | only "create" leads to the invite page; anything else leads to the existing-account path for the platform |
| Onboarding.Walk | apps/daimo-mobile/src/view/screen/onboarding/OnboardingScreen.tsx:144-195 | a run of "next" starts at the given page and visits pages of strictly rising depth, at most one per step |
| Onboarding.InviteStatusLine | apps/daimo-mobile/src/view/screen/onboarding/OnboardingScreen.tsx:337-350 | throws iff a code is entered and the query is idle and not valid; shows valid iff a code is entered, not loading, and valid |
| Onboarding.IsValidInvite | apps/daimo-mobile/src/view/screen/onboarding/OnboardingScreen.tsx:331-332 | the code "testnet" is always valid; unless the query succeeded with true, only "testnet" is |
| Onboarding.Submit | apps/daimo-mobile/src/view/screen/onboarding/OnboardingScreen.tsx:383-388 | the button is enabled iff the code is "testnet" or the server confirmed it |
| Onboarding.SubmitPicksChain | apps/daimo-mobile/src/view/screen/onboarding/OnboardingScreen.tsx:171-178 | submitting a valid invite never throws and picks the test chain exactly for "testnet" |
| Onboarding.Pushed | apps/daimo-mobile/src/view/screen/onboarding/OnboardingScreen.tsx:64-67 | `goTo` shows the target and grows the stack by one |
| Onboarding.Popped | apps/daimo-mobile/src/view/screen/onboarding/OnboardingScreen.tsx:68 | `goToPrev` shrinks the stack by one |
| Onboarding.PopUndoesPush | apps/daimo-mobile/src/view/screen/onboarding/OnboardingScreen.tsx:64-68 | going back undoes going to |
| Onboarding.ResetThenBack | apps/daimo-mobile/src/view/screen/onboarding/OnboardingScreen.tsx:87-89 | after `reset` the stack holds exactly the page it was called from, and going back returns there with an empty stack |
| Onboarding.OnboardingScreen.constructor | apps/daimo-mobile/src/view/screen/onboarding/OnboardingScreen.tsx:62-75 | starts on the intro page with an empty stack, the main chain, and empty name and code |
| Onboarding.OnboardingScreen.GoTo | apps/daimo-mobile/src/view/screen/onboarding/OnboardingScreen.tsx:64-67 | pushes the current page, then switches |
| Onboarding.OnboardingScreen.GoToPrev | apps/daimo-mobile/src/view/screen/onboarding/OnboardingScreen.tsx:68-72 | moves back iff the stack is non-empty, to the most recently pushed page |
| Onboarding.OnboardingScreen.Reset | apps/daimo-mobile/src/view/screen/onboarding/OnboardingScreen.tsx:87-93 | empties the stack, goes to flow selection, clears name and code |
| Onboarding.OnboardingScreen.OnNext | apps/daimo-mobile/src/view/screen/onboarding/OnboardingScreen.tsx:144-195 | performs `Next`: a throw changes nothing, completion calls the callback, a transition pushes and sets the chain when given |
| HomeScreen.TitleAmount | packages/daimo-mobile/src/view/screen/HomeScreen.tsx:53-58 | throws iff the balance is negative ("Invalid amount") or the display decimals exceed the token's |
| HomeScreen.Slice | packages/daimo-mobile/src/view/screen/HomeScreen.tsx:57-58 | `slice` never gives more than the text |
| HomeScreen.Padded | packages/daimo-mobile/src/view/screen/HomeScreen.tsx:55-56 | the padded text is all digits and at least `displayDecimals + 1` long |
| HomeScreen.TitleAmountSplit | packages/daimo-mobile/src/view/screen/HomeScreen.tsx:56-58 | with at least one display decimal, cents are the last `displayDecimals` digits, dollars the non-empty rest, and together they are the padded text |
| HomeScreen.TitleAmountValue | packages/daimo-mobile/src/view/screen/HomeScreen.tsx:55-58 | dollars × 10^displayDecimals + cents equals the scaled balance |
| HomeScreen.PaddedValue | packages/daimo-mobile/src/view/screen/HomeScreen.tsx:56 | padding does not change the value of the digits |
| HomeScreen.DollarsHaveNoLeadingZero | packages/daimo-mobile/src/view/screen/HomeScreen.tsx:56-57 | dollars start with "0" only when they are exactly "0" |
| HomeScreen.TruncatesDown | packages/daimo-mobile/src/view/screen/HomeScreen.tsx:55 | the shown amount never overstates the balance and is short by less than one display unit |
| HomeScreen.NoDisplayDecimals | packages/daimo-mobile/src/view/screen/HomeScreen.tsx:57-58 | with no display decimals, dollars are empty and the whole number ends up in cents |

## Behaviours kept as written

These are modelled as the code behaves, not as it might have been meant:

- **Duplicate notes in one batch.** In `loadCreated`, every callback checks for a duplicate before its first `await`, and stores its note only after it. Under `Promise.all`, every check therefore sees the notes as they were before the batch, and two creations of the same new owner in one batch both pass. `CheckDupes` and `StoreStep` model this ordering, and `NoteIndexer.SameBatchDuplicatePasses` states the outcome.
- **Maps keyed by objects.** `logCoordinateToNoteEvent` is keyed by object identity, and every lookup builds a new key object, so `getNotebyLogCoordinate` never finds anything (`NoteIndexer.NoteIndexer.GetNotebyLogCoordinate`). The `DaimoOpSender` cache in `loadOpSender` is keyed by a fresh array in the same way. That cache is not modelled as a memo: every call builds a sender.
- **Address case in redemptions.** A redemption's `from` is left in lower case while `redeemer` is checksummed, so the `===` that tells a cancellation from a claim is false whenever the address has a hex letter (`NoteIndexer.SelfRedeemRecordedAsClaimed`).
- **Finalizing shared objects.** `applySync` finalizes old transfers in place, and they are the same objects the pending filter reads afterwards. `Sync.OldTransfersAfterFinalize` gives the list as that filter sees it.
- **Missing key list.** `fetchSync` reads `result.accountKeys.length` for its log summary (sync.ts:158), so an answer without `accountKeys` throws a `TypeError` there, before any check (`Sync.FetchSync`, `Sync.MissingKeysFailSync`). The `|| []` fallback in `applySync` (sync.ts:259) and the throw of the pending-rotation filter (`Sync.StillPendingRotations`) are therefore never reached through `fetchSync`; they model `applySync` as written.
- **Duplicate listeners.** The coin index keeps its listeners in an array, so adding one twice calls it twice, while `AccountManager` keeps a set.
- **No display decimals.** With `displayDecimals` 0, `slice(0, -0)` is empty and `slice(-0)` is everything, so the whole amount is shown as cents (`HomeScreen.NoDisplayDecimals`).
- **Fields this account snapshot does not have.** Some callers read fields that do not exist in the account record modelled here: `transform`, `dismissedActionIDs`, `nextNoteSeq`, `suggestedActions` and `recommendedExchanges`. `applySync` does write two of them (sync.ts:252-255): `recommendedExchanges` becomes the result's list or `[]`, and `suggestedActions` becomes the result's actions without the dismissed ones. The account record of account.ts has none of these fields, so the model leaves them and those two writes out.
- **Request ids in other bases.** `BigInt` reads `0x`, `0o` and `0b` literals and ignores surrounding white space, so a request link whose id is `0x1F` parses to the request id "31" (`Decimal.ParseNonDecimal`, daimoLink.ts:152).

## Left out

- Persistence is abstract. MMKV is a single `Option<StoredModel>` slot, and JSON encoding and decoding are not modelled.
- SQL `SELECT` rows arrive as method inputs. Database errors and `retryBackoff` are not modelled.
- The `Promise.all` of the shovel statements is modelled as sequential execution. The two block inserts can propose the same `(chain_id, block_num)` key, and then whichever runs first inserts it; both propose the same timestamp `block_num * 2 + offset` for it (shovelSquared.ts:41-46, 58-63), so the order does not change the table's contents provided both source tables record the same `block_hash` for that block; otherwise the model fixes the eth-first order, which `Promise.all` does not guarantee.
- The network is left out: the history RPC is a function parameter, and Expo delivery (`sendExpoNotifications`, `maybeSendNotifications`) and `getBalanceAt` are omitted.
- The clock and timers are parameters or omitted. `now` is passed in, and `setInterval`, `setTimeout` and the splash screen are not modelled.
- Floating-point formatting is represented by function parameters:
  - `amountToDollars`;
  - `formatUnits` with `toFixed(2)`;
  - `parseFloat` with `toFixed(2)` normalisation;
  - `Number(value)` on amounts (integers here, with no precision loss).
- `Onboarding.Next` has no case for a page outside the union. The `default: throw` branch cannot be reached with the typed page set.
- `HomeScreen.TitleAmount` computes `10 ** k` exactly. JavaScript numbers are inexact above 10^22, and the exact text of the `RangeError` for fractional powers is not modelled.
- Rendering, styles and React state timing are not modelled. The invite field's `toLowerCase` on change is also left out.
- Logging, telemetry and the database module are left out.
- `cacheEAccounts` appears only as an event in the manager's trace.
- Signing, passkeys, the native key stores and `DaimoOpSender.init` are represented only by their outcomes, which are inputs of `SendAsync.Send`.
- The `exec` wrapper of `useSendAsync` is not modelled. This covers its assertions, the assignments to `pendingOp` fields and the call to `AccountManager.transform`.
- `SendAsync.ErrorStatus`: its contract is the priority order itself, because the source is only that case split.
- `CoinIndexer.ToOpEvent`: the nonce metadata decoding (`DaimoNonce.fromHex`) is left out.
- `PushNotifier.NoteOpMessages`: the claim's message bodies are stated by the lemma `ClaimTellsSenderThenClaimer` only for their titles and recipients; the confirmed and cancelled messages are stated in full.
- `Sync.Scheduler.Resync`: the RPC client marks the app online whenever any request succeeds (sync.ts:112). That client is not part of this model, so a successful sync here leaves the status and the failure count as they were.
- `Sync.Scheduler.Resync`: the interleaving of other work with the awaited fetch is not modelled; the model runs each sync to completion. So the "account deleted during sync" assertion (sync.ts:108) cannot fail here, and the account the result is applied to is the one the fetch started from, where the source reads `manager.currentAccount` again after the fetch.
- `NoteIndexer`: the thrown messages keep only their fixed text; the owner, transaction hash and log index the source appends are left out.
- `Common.AddrText`: an address with a hex letter is taken to read differently in checksum case and in lower case. An EIP-55 checksum may leave every letter in lower case, so the two texts may in fact agree; the model does not compute the checksum.
