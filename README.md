# Batch confirmations of the gravity bridge keeper

This project models the batch-confirmation store of the gravity bridge module, `x/gravity/keeper/keeper_batch.go`.

An orchestrator confirms an outgoing transaction batch by signing it. The keeper keeps one confirmation record (`MsgConfirmBatch`) per combination of external chain, token contract, batch nonce and orchestrator account. It stores these records in the module's ordered key-value store. The keeper can:

- read one record back (`GetBatchConfirm`);
- write a record under a key derived from the record's own fields (`SetBatchConfirm`);
- iterate over the records of one batch, or of one chain, in ascending key order, with an early stop (`IterateBatchConfirmByNonceAndTokenContract`, `IterateBatchConfirms`);
- collect every record of one batch (`GetBatchConfirmByNonceAndTokenContract`);
- delete every record of a settled batch (`DeleteBatchConfirms`).

The project has these modules:

- `Bytes` (`bytes.dfy`): byte strings, Go's 64-bit unsigned integers, the lexicographic byte order the store iterates in, byte prefixes, and 8-byte big-endian encoding.
- `Keys` (`keys.dfy`): the confirmation key, the prefix of one batch, the prefix of one chain, and `PrefixRange`. `PrefixRange` is the `[start, end)` store range that holds exactly the keys with a given prefix.
- `Codec` (`codec.dfy`): the record and its stored form, using proto3 field rules.
  - Marshalling omits zero-valued fields.
  - Unmarshalling merges the fields it reads into a pre-filled record.
- `Addresses` (`addresses.dfy`): the address checks the keeper calls, passed in as parameters.
- `Store` (`store.dfy`): the class `KVStore`, whose `contents` map `Set` and `Delete` change in place. Its `Iterator` yields the keys of a range in ascending order.
- `KeeperBatch` (`keeper_batch.dfy`): the six keeper operations.
  - The operations that change the store are methods on a `KVStore`.
  - Each operation that reads the store is tied by its `ensures` to a function of `contents`: `GetBatchConfirm`, `Walk`, `Collected` or `Swept`. Lemmas about those functions state what the operation promises.

A panic in the Go code (`panic`, or `MustUnmarshal` on a corrupt value) is modelled as `Outcome.Panic(fault)`.

The three decoders differ on purpose, because the source pre-fills them differently:

- `GetBatchConfirm` pre-fills the nonce and the token contract, but not the chain id.
- The batch iterator also pre-fills the chain id.
- `IterateBatchConfirms` decodes into the zero record.

These defaults show through wherever the stored value lacks a field.

The source documents `DeleteBatchConfirms` as deleting the confirmations of an outgoing batch (keeper_batch.go:53). What the code deletes is narrower (:56-63), and the model states exactly that:

- It collects the batch's records, then deletes only the key it rebuilds from each collected record's orchestrator field.
  - A record whose orchestrator does not parse is skipped and survives the sweep.
  - So does a record stored under a key that its orchestrator does not rebuild.
- A stored value that does not unmarshal makes the collect panic (`MustUnmarshal`, :86) before anything is deleted (`DeleteBatchConfirms`).
- Every record of the batch is removed when every record under the batch prefix is self-keyed (`SweepComplete`). A record is self-keyed when it decodes and its orchestrator rebuilds its own key.
  - A record `SetBatchConfirm` writes is self-keyed (`SetBatchConfirmSelfKeyed`).
  - Each further successful write keeps every batch's records self-keyed (`SetBatchConfirmKeepsSelfKeyed`).
  - So in a store filled only by `SetBatchConfirm`, a sweep leaves the batch empty.

## Model

| member | source | states |
|---|---|---|
| KeeperBatch.GetBatchConfirm | x/gravity/keeper/keeper_batch.go:16-35 | No record and no panic exactly when the validator fails the format check or nothing is stored at the confirmation key. A panic is always a corrupt record: the stored value does not unmarshal over the lookup defaults (nonce and token contract pre-filled, chain id empty). |
| KeeperBatch.LookupDefaults | x/gravity/keeper/keeper_batch.go:26-32 | The record the lookup decodes into: the nonce and the hex token contract are set, and every other field is empty. |
| KeeperBatch.DeriveKey | x/gravity/keeper/keeper_batch.go:40-48 | A write panics with an invalid orchestrator exactly when the orchestrator does not parse as Bech32. It panics with an invalid token contract exactly when the orchestrator parses and the contract does not. Otherwise the key is the confirmation key built only from the record's own chain id, contract, nonce and orchestrator. |
| KeeperBatch.SetBatchConfirm | x/gravity/keeper/keeper_batch.go:38-51 | Returns the derived key or the panic. On a panic the store is unchanged. Otherwise the store is the old store with exactly that one key set to the encoded record. |
| KeeperBatch.SetThenGet | x/gravity/keeper/keeper_batch.go:16-50 | After a successful write, a lookup by the record's chain id, nonce, parsed contract and parsed orchestrator returns the record itself, unchanged. |
| KeeperBatch.SetPreservesOtherGets | x/gravity/keeper/keeper_batch.go:48-49 | A write leaves every lookup of a different batch, or of a different validator, as it was. |
| KeeperBatch.SetBatchConfirmTwice | x/gravity/keeper/keeper_batch.go:48-49 | Writing the same record twice leaves the store as one write does. |
| KeeperBatch.MergeOverOwnKeyFields | x/gravity/keeper/keeper_batch.go:26-33 | A record merged over defaults that agree with its own nonce and leave the other fields empty is the record itself. |
| KeeperBatch.PrefixRangeKeys | x/gravity/keeper/keeper_batch.go:72-73 | The keys the prefix-range iterator yields are exactly the stored keys with the batch prefix. |
| KeeperBatch.OrderedKeys | x/gravity/keeper/keeper_batch.go:73-77 | The iteration order contains every stored key under the prefix, and no other key, each once. |
| KeeperBatch.OrderedKeysAscending | x/gravity/keeper/keeper_batch.go:73-77 | The iteration order is strictly ascending in byte order. |
| KeeperBatch.Walk | x/gravity/keeper/keeper_batch.go:77-91 | The iteration loop panics only on a corrupt record, and makes at most one visit per key. |
| KeeperBatch.NeverStop | x/gravity/keeper/keeper_batch.go:96-99 | The collecting callback: it never asks the iteration to stop (no contract; `WalkToEnd` states what it implies). |
| KeeperBatch.BatchDefaults | x/gravity/keeper/keeper_batch.go:78-85 | The record the batch iterator decodes into: chain id, nonce and hex token contract pre-filled, the other strings empty (no contract; `SetBatchConfirmSelfKeyed` and `CollectSpec` use it). |
| KeeperBatch.WalkAt | x/gravity/keeper/keeper_batch.go:77-90 | The i-th visit is the i-th key, less the stripped bytes, with that key's decoded value. The callback returned false on every visit before the last. |
| KeeperBatch.WalkStops | x/gravity/keeper/keeper_batch.go:87-90 | An iteration that ends before the last key ended because the callback returned true on its last visit. |
| KeeperBatch.WalkToEnd | x/gravity/keeper/keeper_batch.go:96-99 | With a callback that never stops, the iteration completes exactly when every value decodes, and it then visits every key. |
| KeeperBatch.VisitKeys | x/gravity/keeper/keeper_batch.go:77-91 | The `for iter.Valid()` loop with its `break` computes exactly `Walk`. |
| KeeperBatch.IterateBatchConfirmByNonceAndTokenContract | x/gravity/keeper/keeper_batch.go:70-92 | The visits are the walk over the batch's keys in store order, decoded over the defaults with the chain id, nonce and contract pre-filled. Every visited key is a stored key with the batch prefix. Visited keys are strictly ascending. |
| KeeperBatch.VisitsUnderPrefix | x/gravity/keeper/keeper_batch.go:72-88 | Each key a walk over a prefix range passes to its callback is a stored key under the prefix. The keys are passed in strictly ascending order. |
| KeeperBatch.IterateBatchConfirms | x/gravity/keeper/keeper_batch.go:104-120 | The visits are the walk over the chain's keys in store order, decoded over the zero record. Each key is passed with the chain prefix stripped. The chain prefix followed by each visited key is a stored key. The visited keys are strictly ascending. |
| KeeperBatch.StrippedVisitsUnderPrefix | x/gravity/keeper/keeper_batch.go:106-116 | A walk through a prefix store restores each stored key when the prefix is put back on the key it passes. The stripped keys are strictly ascending. |
| KeeperBatch.CollectSpec | x/gravity/keeper/keeper_batch.go:95-101 | A collect succeeds exactly when every stored record under the prefix decodes. On success it holds as many records as there are stored keys under the prefix. The i-th record is the decoded value of the i-th key in store order. |
| KeeperBatch.CollectAt | x/gravity/keeper/keeper_batch.go:95-101 | The i-th collected record is the decoded value of the i-th key in store order. |
| KeeperBatch.CollectPartOk | x/gravity/keeper/keeper_batch.go:95-101 | Collecting from part of a store succeeds when collecting from the whole store succeeds. |
| KeeperBatch.CollectSubState | x/gravity/keeper/keeper_batch.go:95-101 | Every record collected from part of a store is also collected from the whole store. |
| KeeperBatch.EmptyCollect | x/gravity/keeper/keeper_batch.go:95-101 | With no key under the prefix, the collect succeeds with the empty list. |
| KeeperBatch.Collected | x/gravity/keeper/keeper_batch.go:95-101 | The reference function of the collect: every record under the batch prefix, in key order, decoded over the batch defaults (no contract; `CollectSpec` states its meaning). |
| KeeperBatch.GetBatchConfirmByNonceAndTokenContract | x/gravity/keeper/keeper_batch.go:95-101 | Returns the collect of the batch. It succeeds exactly when every record under the batch prefix unmarshals over the batch defaults. On success its length is the number of stored keys under the prefix. |
| KeeperBatch.SweepKey | x/gravity/keeper/keeper_batch.go:57-59 | A collected record yields a key to delete exactly when its orchestrator parses. That key lies under the swept batch's prefix. |
| KeeperBatch.SweepKeys | x/gravity/keeper/keeper_batch.go:56-63 | The deleted keys are exactly the re-derived keys of the collected records whose orchestrator parses. All of them lie under the batch prefix. |
| KeeperBatch.Swept | x/gravity/keeper/keeper_batch.go:54-65 | The reference function of the sweep: the collect's panic, or the store without the sweep keys of the collected records (no contract; the `Sweep` lemmas state its meaning). |
| KeeperBatch.DeleteBatchConfirms | x/gravity/keeper/keeper_batch.go:54-65 | Panics exactly when collecting the batch panics, which is always a corrupt record, and then leaves the store unchanged. Otherwise the new store is the old store without the sweep keys of the collected records. |
| KeeperBatch.DeleteSweepKeys | x/gravity/keeper/keeper_batch.go:56-64 | The deletion loop removes exactly the sweep keys of the records. It removes each key only when it is present. |
| KeeperBatch.SweepStep | x/gravity/keeper/keeper_batch.go:57-62 | One iteration of the deletion loop in two cases. If the orchestrator does not parse, the loop skips the record. If it parses, the loop deletes its key when present and otherwise changes nothing. |
| KeeperBatch.SweepKeysExtend | x/gravity/keeper/keeper_batch.go:56-63 | One more record adds its re-derived key, if any, to the sweep keys. |
| KeeperBatch.SweepKeysMonotone | x/gravity/keeper/keeper_batch.go:56-63 | Fewer collected records yield fewer sweep keys. |
| KeeperBatch.SweepIsolation | x/gravity/keeper/keeper_batch.go:59-61 | A sweep only deletes: every surviving key keeps its value. Every key outside the batch prefix survives, including keys of other nonces, contracts and chains, and keys that are not confirmations. |
| KeeperBatch.SweepLeavesOtherBatches | x/gravity/keeper/keeper_batch.go:59-61 | After a sweep, every lookup of a confirmation of a different batch returns what it returned before. |
| KeeperBatch.SweepSkipsUnparsable | x/gravity/keeper/keeper_batch.go:57-58 | When no collected orchestrator parses, the sweep deletes nothing. |
| KeeperBatch.SweepAgain | x/gravity/keeper/keeper_batch.go:54-65 | Collecting again after a sweep succeeds, and deleting the sweep keys of that second collection removes nothing more. |
| KeeperBatch.SweepIdempotent | x/gravity/keeper/keeper_batch.go:54-65 | A second sweep of the same batch succeeds and changes nothing. |
| KeeperBatch.SetBatchConfirmSelfKeyed | x/gravity/keeper/keeper_batch.go:38-50 | A record written by `SetBatchConfirm` lies under its batch's prefix. It decodes there, and its orchestrator re-derives its key. |
| KeeperBatch.SetBatchConfirmKeepsSelfKeyed | x/gravity/keeper/keeper_batch.go:38-50 | If every record under a batch prefix is self-keyed, it stays so after any successful `SetBatchConfirm`. A write under another batch does not touch those keys, and a write under this batch is self-keyed itself. |
| KeeperBatch.SweepComplete | x/gravity/keeper/keeper_batch.go:54-65 | When every record of the batch is self-keyed, the sweep succeeds. A later collect of the batch then returns the empty list, and every lookup in the batch finds nothing. |
| Store.KVStore.Set | x/gravity/keeper/keeper_batch.go:49 | `store.Set` writes one key and nothing else. |
| Store.KVStore.Delete | x/gravity/keeper/keeper_batch.go:61 | `store.Delete` removes one key and nothing else. |
| Store.KVStore.Has | x/gravity/keeper/keeper_batch.go:60 | `store.Has`: whether the key is stored (no contract). |
| Store.KVStore.Iterator | x/gravity/keeper/keeper_batch.go:73 | The iterator yields the stored keys of the range in ascending byte order. |
| Store.SortedKeysSpec | x/gravity/keeper/keeper_batch.go:77 | The iteration order lists every key of the range exactly once, strictly ascending. |
| Keys.ConfirmKey | x/gravity/keeper/keeper_batch.go:22 | The key of one confirmation, `GetBatchConfirmKey`, in the assumed layout: the batch prefix followed by the validator bytes (no contract; `ConfirmKeyInjective` and `ConfirmKeyPrefixes` state its properties). |
| Keys.NonceContractPrefix | x/gravity/keeper/keeper_batch.go:72 | The prefix of one batch, `GetBatchConfirmNonceContractPrefix`, in the assumed layout: chain prefix, 20-byte contract, 8-byte big-endian nonce (no contract). |
| Keys.ChainPrefix | x/gravity/keeper/keeper_batch.go:106 | The prefix store's prefix, `AppendBytes(BatchConfirmKey, chainID.Bytes())`, in the assumed layout: the tag, then the chain id preceded by its 8-byte length (no contract). |
| Keys.PrefixRange | x/gravity/keeper/keeper_batch.go:73 | `prefixRange`: from the prefix up to the prefix-end string, unbounded when the prefix is all 0xFF bytes (no contract; `PrefixRangeExact` states its meaning). |
| Keys.PrefixRangeExact | x/gravity/keeper/keeper_batch.go:73 | `prefixRange(p)` contains a key exactly when the key starts with `p`. |
| Keys.PrefixRangeComplete | x/gravity/keeper/keeper_batch.go:73 | Every key starting with `p` lies in `prefixRange(p)`. |
| Keys.PrefixRangeSound | x/gravity/keeper/keeper_batch.go:73 | Every key in `prefixRange(p)` starts with `p`. |
| Keys.ConfirmKeyPrefixes | x/gravity/keeper/keeper_batch.go:72 | The batch prefix is a byte prefix of every confirmation key of that batch. The chain prefix is a byte prefix of the batch prefix and of the key. |
| Keys.ConfirmKeyInjective | x/gravity/keeper/keeper_batch.go:48 | No two distinct (chain, contract, nonce, validator) tuples share a confirmation key. |
| Keys.BatchPrefixesDisjoint | x/gravity/keeper/keeper_batch.go:59 | No key lies under the prefixes of two different batches. |
| Keys.ParseBatchIdOfPrefix | x/gravity/keeper/keeper_batch.go:72 | Every key under a batch prefix reads back as that batch. |
| Keys.ConfirmKeyNonceOrder | x/gravity/keeper/keeper_batch.go:72 | Within one chain and contract, keys of a smaller nonce come first in iteration order. |
| Codec.Marshal | x/gravity/keeper/keeper_batch.go:49 | `MustMarshal`: the record's non-zero fields in field-number order (no contract; `UnmarshalMarshal` states its meaning). |
| Codec.Unmarshal | x/gravity/keeper/keeper_batch.go:86 | `MustUnmarshal` into a pre-filled record: each field merged in order, and failure on a malformed field. A ten-byte varint keeps its low 64 bits (no contract; `UnmarshalMarshal` states its meaning). |
| Codec.UnmarshalMarshal | x/gravity/keeper/keeper_batch.go:33 | Unmarshalling a marshalled record into any pre-filled record never fails. Every non-empty field of the marshalled record wins over the pre-filled value. |
| Codec.UnmarshalMarshalEmpty | x/gravity/keeper/keeper_batch.go:113 | Into the zero record, unmarshalling exactly inverts marshalling. |
| Bytes.Uint64ToBigEndian | x/gravity/keeper/keeper_batch.go:72 | The nonce fragment of a key is 8 bytes long and denotes the nonce. |
| Bytes.BigEndianMonotone | x/gravity/keeper/keeper_batch.go:72 | Fixed-width big-endian encoding turns numeric order into byte order. |
| Bytes.BigEndianRoundTrip | x/gravity/keeper/keeper_batch.go:72 | Big-endian encoding loses nothing for a number that fits in the width. |

## Left out

- The key layout is an assumption: the tag `0x0e`, an 8-byte big-endian length before the chain id, the 20-byte contract, the 8-byte big-endian nonce, then the validator bytes.
  - The Go definitions of `types.GetBatchConfirmKey`, `types.GetBatchConfirmNonceContractPrefix`, `ChainID.Bytes` and `prefixRange` are not part of this model. `Keys.ConfirmKey`, `Keys.NonceContractPrefix`, `Keys.ChainIDBytes` and `Keys.PrefixRange` model them on that assumed layout.
  - `prefixRange` is modelled as the standard prefix-end computation: drop the trailing 0xFF bytes and increment the last remaining byte.
- The byte-level protobuf framing is not modelled. A stored value is the list of its encoded fields, with proto3 rules at field level. The field numbers 1 to 6 are taken from the field order of `MsgConfirmBatch`.
- `sdk.VerifyAddressFormat`, `sdk.AccAddressFromBech32`, `types.NewEthAddress` and `EthAddress.Hex` are parameters (`Addresses.AddressCodec`), not implementations. The two facts the round trip needs about them are stated in `Addresses.Lawful`.
- The logger (:19), gas metering, the `ctx` plumbing and `iter.Close` (:75, :109) are left out. They hold no state the model observes.
- Go panics become `Outcome.Panic`. Panics do not unwind anything in the model: the methods return the panic, and the contracts state what the store holds at that point.
- Callbacks are pure functions `(key, record) -> stop`. Each iterator returns the list of visits it made, instead of the callback changing state of its own.
- The `out` slice that `GetBatchConfirmByNonceAndTokenContract` appends to (:97) becomes the list of visited records, returned once the iteration ends.
- `DeleteBatchConfirms`: its deletion loop (:56-64) is the separate method `DeleteSweepKeys`, called once the collect has succeeded. Its behaviour is unchanged.
- `OutgoingTxBatch` holds only the two fields of `InternalOutgoingTxBatch` that the sweep reads: the batch nonce and the token contract.
- Go strings and byte slices are bounded only by Go's `int` length (below 2^63). Nonces are unsigned 64-bit values.
