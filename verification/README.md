# NNS dapp: backend state shell, performance counters and token table order

A Dafny model of three sequential pieces of the NNS dapp:

- **The backend canister's state shell** (`CanisterState`, `state.dfy`). The state owns the accounts
  store, the assets, the asset hashes and the performance counters. It also holds its stable memory,
  which is either raw (the legacy `Map` layout, serialised wholesale on upgrade) or managed
  (partitioned, with accounts in stable structures). The memory decides the authoritative schema.
  The model covers construction for a requested schema with its two consistency checks, and loading
  from managed or raw memory, including the trap on a `Map` label in managed memory. It also covers
  the legacy Candid blob, the choice of save routine before an upgrade, `replace` and state equality.
- **The diagnostic performance counters** (`Perf`, `perf.dfy`): a FIFO of at most 100
  instruction-count samples, a newest-first list of at most 1000 exceptional transaction ids, the
  statistics export that saturates at `u32::MAX`, the periodic-task counter, and the encoding whose
  decoder falls back to an empty structure instead of failing.
- **The tokens table order** (`TokensTable`, `tokens_table.dfy`, on top of `Comparators`,
  `comparators.dfy`). There are five key comparators: ICP first, balance-or-imported first, balance
  first, ck-token importance, and title ignoring case. They are merged so that the first non-tie
  decides. The model proves that the merged comparator is consistent, i.e. a valid sort order.

Shared pieces: `Wrappers` (Option/Result; an `Err` also stands for a trap), `Candid` (abstract
codecs), `Seqs` (`truncate`, last-n, reverse, `indexOf`).

`replace` swaps only the four owned stores and keeps the receiver's memory, so after a replace the
authoritative schema is the receiver's, whatever memory the new state was loaded from.

## Model

| member | source | states |
|---|---|---|
| CanisterState.SchemaLabelOf | rs/backend/src/state.rs:85-100 | the authoritative schema is `Map` whenever the memory is raw, and the partitions' own label when it is managed |
| CanisterState.EqualIffSameUpToMemory | rs/backend/src/state.rs:37-44 | two states are equal exactly when they differ at most in their memory: equality compares only accounts, assets, hashes and performance |
| CanisterState.Replace | rs/backend/src/state.rs:79-84 | replace takes all four owned stores from the new state and keeps the old memory |
| CanisterState.ReplaceProperties | rs/backend/src/state.rs:27-35 | after replace the state equals the new one and the authoritative schema is unchanged; a later replace overrides an earlier one; replacing with itself is a no-op |
| CanisterState.Default | rs/backend/src/state.rs:47-57 | the default state has the default stores and blank counters over the default raw-memory handle |
| CanisterState.DefaultIsNewMap | rs/backend/src/state.rs:47-57 | `State::default()` is the state `State::new(Map, ..)` builds over the default memory handle, provided the default accounts store reports `Map` |
| CanisterState.New | rs/backend/src/state.rs:113-156 | `Map` succeeds exactly when the default accounts store reports `Map`, and then yields the given raw memory with default stores; `AccountsInStableMemory` succeeds exactly when the formatted partitions and the accounts store opened on them both report that schema; on success both the accounts store and the memory report the requested schema |
| CanisterState.FromPartitions | rs/backend/src/state.rs:179-198 | loading from managed memory traps with the incompatible-label message when its label is `Map`; with `AccountsInStableMemory` the result is the heap recovery of the heap partition, so it fails exactly on a `Map` label or a failed heap recovery |
| CanisterState.FromMemory | rs/backend/src/state.rs:200-209 | the partitioned path is taken exactly when the memory parses as partitions, otherwise raw recovery, whose answer does not depend on the memory handed in; loading fails exactly on a `Map` label in managed memory or a failed recovery on the path taken |
| CanisterState.NewManagedMemoryLoads | rs/backend/src/state.rs:127-198 | managed memory formatted by `new` carries `AccountsInStableMemory`, so loading it never hits the `Map` trap and is exactly the heap recovery of its heap partition |
| CanisterState.WithArgumentsMaybe | rs/backend/src/state.rs:157-169 | applying optional canister arguments leaves the state unchanged, with or without arguments |
| CanisterState.Encode | rs/backend/src/state.rs:212-216 | the legacy blob is the Candid pair of the encoded accounts and assets, and a failed pair encoding traps |
| CanisterState.Decode | rs/backend/src/state.rs:218-232 | decoding fails if the pair, the assets half or the accounts half fails, with that error and in that order; on success the hashes are derived from the assets, performance is reset and the memory is the default raw-memory handle |
| CanisterState.DecodeEncodeRoundTrip | rs/backend/src/state.rs:211-233 | with round-tripping codecs the blob restores accounts and assets under schema `Map`, and the result equals the original exactly when its hashes were derived and its counters blank |
| CanisterState.PreUpgrade | rs/backend/src/state.rs:236-249 | the state is saved to raw memory exactly when the authoritative schema is `Map`, and the heap to managed memory exactly when it is `AccountsInStableMemory` |
| CanisterState.RawMemorySavesRaw | rs/backend/src/state.rs:238-249 | a state over raw memory is always saved to raw memory |
| CanisterState.NewThenPreUpgrade | rs/backend/src/state.rs:113-156 | a successfully constructed state is saved by the routine of the schema it was constructed for |
| CanisterState.LegacyUpgradeKeepsMapAuthoritative | rs/backend/tests/migration.rs:215-224 | after an upgrade from the legacy layout, whatever schema is requested, loading traps exactly when raw recovery does; otherwise `Map` remains authoritative and the next upgrade again saves raw memory |
| Perf.SaveInstructionCount | rs/backend/src/perf.rs:46-52 | the new sample goes at the back; below 100 nothing is dropped; at 100 or more exactly the oldest is dropped and the rest keep their order; at most 100 stays at most 100 |
| Perf.SaveAllKeepsLatest | rs/backend/src/perf.rs:46-52 | from a buffer of at most 100 samples, after any sequence of saves the buffer is exactly the last (up to) 100 of the old samples followed by the saved ones |
| Perf.RecordInstructionCount | rs/backend/src/perf.rs:110-117 | the newest sample is the one labelled with the given name, time and instruction count; the older samples keep their order, less the oldest when 100 or more were held; the bound of 100 is kept and the other counters are untouched |
| Perf.GetStats | rs/backend/src/perf.rs:54-63 | statistics copy the samples in order and the periodic count unchanged; the exceptional count is 0 for an absent list, the length otherwise, saturated at `u32::MAX`; other statistics are untouched |
| Perf.SaturatingU32 | rs/backend/src/perf.rs:60 | a count converts to `u32` unchanged when it fits and becomes `u32::MAX` otherwise |
| Perf.RecordExceptionalTransactionId | rs/backend/src/perf.rs:65-76 | an absent list becomes the one-element list; the new id is always first, the old ids follow in order, and the length never exceeds 1000 |
| Perf.RecordAllKeepsNewest | rs/backend/src/perf.rs:65-76 | after recording a run of ids the list is all ids ever recorded, newest first, cut to the first 1000 |
| Perf.StatsCountExceptionalTransactions | rs/backend/src/perf.rs:55-76 | starting from no list, statistics report the number of recorded ids, capped at 1000 |
| Perf.IncrementPeriodicTasksRun | rs/backend/src/perf.rs:78-80 | an absent counter becomes 1 and a present one grows by 1; nothing else changes |
| Perf.IncrementTimesCounts | rs/backend/src/perf.rs:78-80 | k increments add exactly k to the counter, counting an absent counter as 0 |
| Perf.Encode | rs/backend/src/perf.rs:98-101 | a failed encoding yields an empty byte string instead of an error |
| Perf.Decode | rs/backend/src/perf.rs:103-107 | decoding never fails: undecodable bytes give the empty default |
| Perf.DecodeEncodeRoundTrip | rs/backend/src/perf.rs:97-108 | counters the codec can encode decode back unchanged |
| Perf.EncodeFailureRestoresDefault | rs/backend/src/perf.rs:97-108 | counters that cannot be encoded come back as the blank default |
| Comparators.Ascending | frontend/src/lib/utils/tokens-table.utils.ts:61-63 | an ascending key comparator answers -1, 0 or 1, negative exactly when the first key is smaller |
| Comparators.Descending | frontend/src/lib/utils/tokens-table.utils.ts:16-22 | a descending key comparator is negative exactly when the first key is larger |
| Comparators.StringLessIsStrictTotalOrder | frontend/src/lib/utils/tokens-table.utils.ts:61-63 | lexicographic string comparison is irreflexive, transitive and total |
| Comparators.KeyComparatorConsistent | frontend/src/lib/utils/tokens-table.utils.ts:61-63 | comparing by a key in ascending order is a consistent comparator that ties exactly on equal keys |
| Comparators.DescendingKeyComparatorConsistent | frontend/src/lib/utils/tokens-table.utils.ts:16-22 | the same for descending order |
| Comparators.MergeFirstNonZero | frontend/src/lib/utils/tokens-table.utils.ts:71-77 | a merged comparator answers with the first comparator that does not tie, and ties when all tie |
| Comparators.MergeTiesIffAllTie | frontend/src/lib/utils/tokens-table.utils.ts:71-77 | a merged comparator ties exactly when every comparator ties |
| Comparators.MergeConsistent | frontend/src/lib/utils/tokens-table.utils.ts:71-77 | merging consistent comparators gives a consistent comparator |
| TokensTable.GetTokenBalanceOrZero | frontend/src/lib/utils/tokens-table.utils.ts:13-14 | a balance that is not a token amount counts as 0; an amount counts as its ulps |
| TokensTable.HasBalanceIffPositiveAmount | frontend/src/lib/utils/tokens-table.utils.ts:13-22 | a token has a balance exactly when its balance is an amount above zero |
| TokensTable.CompareTokensIcpFirst | frontend/src/lib/utils/tokens-table.utils.ts:16-18 | the ICP token (own canister id) sorts before a non-ICP token and after none |
| TokensTable.CompareTokensWithBalanceFirst | frontend/src/lib/utils/tokens-table.utils.ts:20-22 | a token with positive balance sorts before one without |
| TokensTable.CompareTokensWithBalanceOrImportedFirst | frontend/src/lib/utils/tokens-table.utils.ts:25-34 | a token with a positive balance or an imported id sorts before one with neither |
| TokensTable.ImportanceRanks | frontend/src/lib/utils/tokens-table.utils.ts:36-59 | ckBTC ranks 2, ckETH 1, ckUSDC 0, an imported non-ck token 0, every other token -1 |
| TokensTable.CompareTokensByImportance | frontend/src/lib/utils/tokens-table.utils.ts:47-59 | a higher importance rank sorts first; equal ranks tie |
| TokensTable.CompareTokensAlphabetically | frontend/src/lib/utils/tokens-table.utils.ts:61-63 | titles are ordered by their lowercased form, ascending |
| TokensTable.AlphabeticalTiesIffSameIgnoringCase | frontend/src/lib/utils/tokens-table.utils.ts:61-63 | two titles tie exactly when they agree after lowercasing, so titles differing only in case tie |
| TokensTable.TableConsultsInOrder | frontend/src/lib/utils/tokens-table.utils.ts:66-77 | the table applies the five comparators in order; each later one decides only when all earlier ones tie |
| TokensTable.IcpSortsFirst | frontend/src/lib/utils/tokens-table.utils.ts:71-72 | in the table ICP sorts before every other token |
| TokensTable.BalanceOrImportedSortsFirst | frontend/src/lib/utils/tokens-table.utils.ts:71-73 | after the ICP split, a token with a balance or imported sorts before one with neither |
| TokensTable.BalanceSortsFirst | frontend/src/lib/utils/tokens-table.utils.ts:71-74 | after the ICP split, a token with a positive balance sorts before one without, imported or not |
| TokensTable.ComparatorConsistent | frontend/src/lib/utils/tokens-table.utils.ts:16-63 | each of the five comparators is consistent |
| TokensTable.TableComparatorConsistent | frontend/src/lib/utils/tokens-table.utils.ts:66-77 | the table comparator is consistent: every token ties with itself, swapping the arguments flips the sign, and the order is transitive |

## Left out

- `frontend/src/lib/utils/responsive-table.utils.ts` is not part of this model. `createAscendingComparator`
  is taken to answer -1 when the first key is smaller, 1 when it is larger and 0 otherwise.
  `createDescendingComparator` is the same with the arguments swapped. `mergeComparators` returns
  the first non-zero answer. JavaScript booleans compare as `false < true`.
- TokensTable.CompareTokensAlphabetically: lowercases only the ASCII letters A-Z, not the full
  Unicode case mapping of `toLowerCase`. It also compares characters as code points, whereas
  JavaScript compares UTF-16 code units. The two differ only for characters outside the Basic
  Multilingual Plane.
- TokensTable.ImportanceRanks: assumes the ckBTC, ckETH and ckUSDC canister ids are distinct. The
  constants are not part of this model and are parameters (`TokenIds`). `ImportanceRank` itself
  models `indexOf` for any ids.
- Perf.IncrementPeriodicTasksRun: the counter is an unbounded `nat`. Whether the source's `u32`
  `+ 1` wraps or panics at `u32::MAX` depends on the build profile, which is not part of this model.
- The Candid wire encoding, `instruction_counter()` and `time()` are foreign calls. Codecs are
  function-valued parameters (`Candid.Codec`, `Candid.StableCodec`); clock and counter values are
  arguments of `Perf.RecordInstructionCount`.
- `Partitions`, `AccountsStore`, `Assets`, `AssetHashes` and the raw and managed save and recover
  routines are not part of this model. They appear only through the labels and contents they report,
  and their operations are parameters (`CanisterState.Platform`): among them the default accounts
  store, whose reported label `State::new` checks, and the default memory handle. The save routines
  are represented by the `SaveAction` that `PreUpgrade` chooses.
- CanisterState.FromMemory: `recover_from_raw_memory()` takes no argument and reads the canister's own
  stable memory. It is modelled as one fallible answer (`Platform.recoverFromRawMemory`), not as a
  function of the memory passed to `from`. What that memory holds is not modelled.
- CanisterState.LegacyUpgradeKeepsMapAuthoritative: assumes that a raw recovery which does not trap
  yields a state over raw memory (`RawRecoveryStaysRaw`), as `Decode` does. The recovery routine
  itself is not part of this model.
- `SchemaLabel::default()` is taken to be `Map`. It is what `unwrap_or_default` supplies for raw
  memory in the second check of `State::new`.
- The `RefCell` fields and the `thread_local!` `STATE` are replaced by an immutable `State` value.
  `Replace` returns the updated value.
- The migration controller (batching, migration countdown, ticks, rollback bookkeeping) lives in
  files that are not part of this model. Of the scenarios in `rs/backend/tests/migration.rs`, only
  the shell's part is modelled: `Map` stays authoritative while memory is raw, and `with_arguments`
  does not yet act on a requested schema.
- The `Debug` formatting of `State` and the diagnostic `print` calls are logging only.
- `Perf.Stats` holds only the statistics fields that the counters write, plus two that they must
  leave alone. The rest of the statistics record is not part of this model.
