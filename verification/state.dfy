/** The persistent state shell of the backend canister: the accounts store,
    the assets, their hashes and the performance counters, together with
    the stable memory they live in. The memory is either raw (the legacy
    layout, where everything is serialised wholesale on upgrade) or managed
    (partitioned, with accounts kept directly in stable structures), and that
    choice decides which schema is authoritative. */
module CanisterState {
  import opened Wrappers
  import opened Candid
  import Perf

  /** The storage layouts the canister knows. */
  datatype SchemaLabel = Map | AccountsInStableMemory

  /** `SchemaLabel::default()`. */
  function DefaultSchemaLabel(): SchemaLabel {
    Map
  }

  /** A stable memory handle, seen through the bytes it reads. */
  datatype RawMemory = RawMemory(bytes: seq<byte>)

  /** Managed memory as the backend sees it: the schema label stored in the
      metadata partition, the heap partition and the accounts partition. */
  datatype Partitions = Partitions(schemaLabel: SchemaLabel, heap: RawMemory, accounts: RawMemory)

  /** The accounts database, seen through the schema it reports and its
      contents. */
  datatype AccountsStore = AccountsStore(schemaLabel: SchemaLabel, accounts: map<seq<byte>, seq<byte>>)

  datatype Assets = Assets(files: map<string, seq<byte>>)

  datatype AssetHashes = AssetHashes(hashes: map<string, seq<byte>>)

  /** `Result<Partitions, DefaultMemoryImpl>`: managed or raw memory. */
  datatype StableMemory = Raw(memory: RawMemory) | Managed(partitions: Partitions)

  datatype State = State(
    accountsStore: AccountsStore,
    assets: Assets,
    assetHashes: AssetHashes,
    performance: Perf.PerformanceCounts,
    partitionsMaybe: StableMemory)

  /** The collaborators the shell calls but does not define: the default
      memory handle (`DefaultMemoryImpl::default()`), parsing and formatting
      partitions, the default accounts store and the one opened on a
      partition, recovering a state from either layout, and hashing assets.
      Recovery reads a serialised blob and traps when that fails, so both
      recovery routines may answer `Err`. `recover_from_raw_memory` takes no
      argument: it reads the canister's own stable memory, so it is one
      answer rather than a function of the memory handed to the loader. */
  datatype Platform = Platform(
    defaultMemory: RawMemory,
    tryFromMemory: RawMemory -> Option<Partitions>,
    newForSchema: (RawMemory, SchemaLabel) -> Partitions,
    defaultAccountsStore: AccountsStore,
    accountsInStableMemory: RawMemory -> AccountsStore,
    recoverHeapFromManagedMemory: RawMemory -> Result<State>,
    recoverFromRawMemory: Result<State>,
    assetHashesFrom: Assets -> AssetHashes)

  /** The encodings the legacy blob is built from. */
  datatype Codecs = Codecs(
    pair: Codec<(seq<byte>, seq<byte>)>,
    accounts: StableCodec<AccountsStore>,
    assets: StableCodec<Assets>)

  /** The canister's init and upgrade arguments; only the requested schema
      matters here. */
  datatype CanisterArguments = CanisterArguments(schema: Option<SchemaLabel>)

  /** The save routine `pre_upgrade` runs. */
  datatype SaveAction = SaveToRawMemory | SaveHeapToManagedMemory

  /** Default stores and blank counters. */
  predicate HasEmptyStores(s: State, platform: Platform) {
    && s.accountsStore == platform.defaultAccountsStore
    && s.assets == Assets(map[])
    && s.assetHashes == AssetHashes(map[])
    && s.performance == Perf.Default()
  }

  /** `State::default()`: default stores over the default raw-memory handle. */
  function Default(platform: Platform): (r: State)
    ensures HasEmptyStores(r, platform)
    ensures r.partitionsMaybe == Raw(platform.defaultMemory)
  {
    State(platform.defaultAccountsStore, Assets(map[]), AssetHashes(map[]), Perf.Default(), Raw(platform.defaultMemory))
  }

  /** The default state is the one `State::new(Map, ..)` builds over the
      default memory handle, whenever the default accounts store reports
      `Map`. */
  lemma DefaultIsNewMap(platform: Platform)
    requires platform.defaultAccountsStore.schemaLabel == Map
    ensures New(Map, platform.defaultMemory, platform) == Ok(Default(platform))
  {
  }

  // ---------------------------------------------------------------------------
  // Authoritative schema, equality, replacement
  // ---------------------------------------------------------------------------

  /** The authoritative schema: the label in managed memory, or `Map` when the
      memory is raw. */
  function SchemaLabelOf(s: State): (r: SchemaLabel)
    ensures s.partitionsMaybe.Raw? ==> r == Map
    ensures s.partitionsMaybe.Managed? ==> r == s.partitionsMaybe.partitions.schemaLabel
  {
    match s.partitionsMaybe
    case Managed(partitions) => partitions.schemaLabel
    case Raw(_) => Map
  }

  /** State equality: the four owned stores, ignoring the memory. */
  predicate Equal(s: State, t: State) {
    && s.accountsStore == t.accountsStore
    && s.assets == t.assets
    && s.assetHashes == t.assetHashes
    && s.performance == t.performance
  }

  /** Two states are equal exactly when they differ at most in memory. */
  lemma EqualIffSameUpToMemory(s: State, t: State)
    ensures Equal(s, t) <==> s.(partitionsMaybe := t.partitionsMaybe) == t
  {
  }

  /** Takes over the four owned stores of `newState`, keeping this state's
      memory. */
  function Replace(s: State, newState: State): (r: State)
    ensures r.accountsStore == newState.accountsStore
    ensures r.assets == newState.assets
    ensures r.assetHashes == newState.assetHashes
    ensures r.performance == newState.performance
    ensures r.partitionsMaybe == s.partitionsMaybe
  {
    s.(accountsStore := newState.accountsStore,
       assets := newState.assets,
       assetHashes := newState.assetHashes,
       performance := newState.performance)
  }

  /** After a replace the state equals the new one, its authoritative schema
      is unchanged, and a second replace wins over the first. */
  lemma ReplaceProperties(s: State, n: State, m: State)
    ensures Equal(Replace(s, n), n)
    ensures SchemaLabelOf(Replace(s, n)) == SchemaLabelOf(s)
    ensures Replace(Replace(s, n), m) == Replace(s, m)
    ensures Replace(s, s) == s
  {
  }

  // ---------------------------------------------------------------------------
  // Construction and loading
  // ---------------------------------------------------------------------------

  /** `State::new`: a fresh state for the requested schema, checked against
      the schema the accounts store and the memory report. */
  function New(schema: SchemaLabel, memory: RawMemory, platform: Platform): (r: Result<State>)
    ensures r.Ok? ==> SchemaLabelOf(r.value) == schema && r.value.accountsStore.schemaLabel == schema
    ensures schema == Map ==>
              && (r.Ok? <==> platform.defaultAccountsStore.schemaLabel == Map)
              && (r.Ok? ==> r.value.partitionsMaybe == Raw(memory) && HasEmptyStores(r.value, platform))
    ensures schema == AccountsInStableMemory ==>
              var partitions := platform.newForSchema(memory, schema);
              && (r.Ok? <==> partitions.schemaLabel == schema
                             && platform.accountsInStableMemory(partitions.accounts).schemaLabel == schema)
              && (r.Ok? ==> r.value.partitionsMaybe == Managed(partitions)
                            && r.value.accountsStore == platform.accountsInStableMemory(partitions.accounts))
    ensures r.Ok? ==> r.value.assets == Assets(map[]) && r.value.assetHashes == AssetHashes(map[])
                      && r.value.performance == Perf.Default()
  {
    var state := match schema
      case Map =>
        State(platform.defaultAccountsStore, Assets(map[]), AssetHashes(map[]), Perf.Default(), Raw(memory))
      case AccountsInStableMemory =>
        var partitions := platform.newForSchema(memory, schema);
        State(platform.accountsInStableMemory(partitions.accounts), Assets(map[]), AssetHashes(map[]),
              Perf.Default(), Managed(partitions));
    var memorySchema := match state.partitionsMaybe
      case Managed(partitions) => partitions.schemaLabel
      case Raw(_) => DefaultSchemaLabel();
    if state.accountsStore.schemaLabel != schema then
      Err("Accounts store does not have the expected schema")
    else if memorySchema != schema then
      Err("Memory is not partitioned as expected")
    else
      Ok(state)
  }

  /** Loads the state from managed memory; a `Map` label there cannot be
      right and traps, and so does a heap partition that does not recover. */
  function FromPartitions(partitions: Partitions, platform: Platform): (r: Result<State>)
    ensures r.Err? <==> partitions.schemaLabel == Map
                        || platform.recoverHeapFromManagedMemory(partitions.heap).Err?
    ensures partitions.schemaLabel == Map ==>
              r == Err("Decoding stable memory failed: Found label 'Map' in managed memory, but these are incompatible.")
    ensures partitions.schemaLabel == AccountsInStableMemory ==>
              r == platform.recoverHeapFromManagedMemory(partitions.heap)
  {
    match partitions.schemaLabel
    case Map =>
      Err("Decoding stable memory failed: Found label 'Map' in managed memory, but these are incompatible.")
    case AccountsInStableMemory =>
      platform.recoverHeapFromManagedMemory(partitions.heap)
  }

  /** Loads the state from stable memory: as partitions when the memory parses
      as such, otherwise from the legacy raw layout. */
  function FromMemory(memory: RawMemory, platform: Platform): (r: Result<State>)
    ensures platform.tryFromMemory(memory).Some? ==> r == FromPartitions(platform.tryFromMemory(memory).value, platform)
    ensures platform.tryFromMemory(memory).None? ==> r == platform.recoverFromRawMemory
    ensures r.Err? <==> match platform.tryFromMemory(memory)
                        case Some(partitions) =>
                          partitions.schemaLabel == Map || platform.recoverHeapFromManagedMemory(partitions.heap).Err?
                        case None => platform.recoverFromRawMemory.Err?
  {
    match platform.tryFromMemory(memory)
    case Some(partitions) => FromPartitions(partitions, platform)
    case None => platform.recoverFromRawMemory
  }

  /** Managed memory that `New` formatted carries the label it was formatted
      for, so loading it never hits the `Map` trap: it is exactly the heap
      recovery of its heap partition. */
  lemma NewManagedMemoryLoads(schema: SchemaLabel, memory: RawMemory, platform: Platform)
    requires New(schema, memory, platform).Ok?
    requires New(schema, memory, platform).value.partitionsMaybe.Managed?
    ensures var partitions := New(schema, memory, platform).value.partitionsMaybe.partitions;
            && partitions.schemaLabel == AccountsInStableMemory
            && FromPartitions(partitions, platform) == platform.recoverHeapFromManagedMemory(partitions.heap)
  {
  }

  /** Applies the canister arguments, if any; applying them changes nothing. */
  function WithArgumentsMaybe(s: State, argumentsMaybe: Option<CanisterArguments>): (r: State)
    ensures r == s
  {
    match argumentsMaybe
    case Some(arguments) => WithArguments(s, arguments)
    case None => s
  }

  function WithArguments(s: State, arguments: CanisterArguments): State {
    s
  }

  // ---------------------------------------------------------------------------
  // The legacy blob
  // ---------------------------------------------------------------------------

  /** Serialises the accounts store and the assets as a Candid pair; a
      failure of the pair encoding traps. */
  function Encode(s: State, codecs: Codecs): (r: Result<seq<byte>>)
    ensures var pair := (codecs.accounts.encode(s.accountsStore), codecs.assets.encode(s.assets));
            && (r.Ok? <==> codecs.pair.encode(pair).Ok?)
            && (r.Ok? ==> r.value == codecs.pair.encode(pair).value)
  {
    var pair := (codecs.accounts.encode(s.accountsStore), codecs.assets.encode(s.assets));
    match codecs.pair.encode(pair)
    case Ok(bytes) => Ok(bytes)
    case Err(e) => Err(e)
  }

  /** Parses the legacy blob: the pair, then the assets, then the accounts,
      the first failure winning. The asset hashes are recomputed, the
      performance counters start blank and the memory is the default
      raw-memory handle. */
  function Decode(bytes: seq<byte>, codecs: Codecs, platform: Platform): (r: Result<State>)
    ensures codecs.pair.decode(bytes).Err? ==> r == Err(codecs.pair.decode(bytes).error)
    ensures codecs.pair.decode(bytes).Ok? ==>
              var (accountsBytes, assetsBytes) := codecs.pair.decode(bytes).value;
              && (codecs.assets.decode(assetsBytes).Err? ==> r == Err(codecs.assets.decode(assetsBytes).error))
              && (codecs.assets.decode(assetsBytes).Ok? && codecs.accounts.decode(accountsBytes).Err? ==>
                    r == Err(codecs.accounts.decode(accountsBytes).error))
              && (r.Ok? <==> codecs.assets.decode(assetsBytes).Ok? && codecs.accounts.decode(accountsBytes).Ok?)
              && (r.Ok? ==> r.value.accountsStore == codecs.accounts.decode(accountsBytes).value
                            && r.value.assets == codecs.assets.decode(assetsBytes).value)
    ensures r.Ok? ==> && r.value.assetHashes == platform.assetHashesFrom(r.value.assets)
                      && r.value.performance == Perf.Default()
                      && r.value.partitionsMaybe == Raw(platform.defaultMemory)
  {
    var pair :- codecs.pair.decode(bytes);
    var (accountStoreBytes, assetsBytes) := pair;
    var assets :- codecs.assets.decode(assetsBytes);
    var assetHashes := platform.assetHashesFrom(assets);
    var accountsStore :- codecs.accounts.decode(accountStoreBytes);
    Ok(State(accountsStore, assets, assetHashes, Perf.Default(), Raw(platform.defaultMemory)))
  }

  /** With round-tripping codecs, the legacy blob brings back the accounts and
      the assets; the hashes are rederived and the counters reset, so the
      restored state equals the original exactly when those two already held. */
  lemma DecodeEncodeRoundTrip(s: State, codecs: Codecs, platform: Platform)
    requires RoundTrips(codecs.pair)
    requires StableRoundTrips(codecs.accounts) && StableRoundTrips(codecs.assets)
    requires Encode(s, codecs).Ok?
    ensures var r := Decode(Encode(s, codecs).value, codecs, platform);
            && r.Ok?
            && r.value.accountsStore == s.accountsStore
            && r.value.assets == s.assets
            && SchemaLabelOf(r.value) == Map
            && (Equal(r.value, s) <==> s.assetHashes == platform.assetHashesFrom(s.assets)
                                       && s.performance == Perf.Default())
  {
  }

  // ---------------------------------------------------------------------------
  // Upgrade
  // ---------------------------------------------------------------------------

  /** Chooses how to save before an upgrade, by the authoritative schema. */
  function PreUpgrade(s: State): (r: SaveAction)
    ensures r == SaveToRawMemory <==> SchemaLabelOf(s) == Map
    ensures r == SaveHeapToManagedMemory <==> SchemaLabelOf(s) == AccountsInStableMemory
  {
    match SchemaLabelOf(s)
    case Map => SaveToRawMemory
    case AccountsInStableMemory => SaveHeapToManagedMemory
  }

  /** A state over raw memory is always saved to raw memory. */
  lemma RawMemorySavesRaw(s: State)
    requires s.partitionsMaybe.Raw?
    ensures PreUpgrade(s) == SaveToRawMemory
  {
  }

  /** A freshly constructed state is saved the way its schema asks. */
  lemma NewThenPreUpgrade(schema: SchemaLabel, memory: RawMemory, platform: Platform)
    requires New(schema, memory, platform).Ok?
    ensures PreUpgrade(New(schema, memory, platform).value)
            == (if schema == Map then SaveToRawMemory else SaveHeapToManagedMemory)
  {
  }

  /** Raw-memory recovery, when it does not trap, yields a state over raw
      memory, as decoding the legacy blob does. */
  predicate RawRecoveryStaysRaw(platform: Platform) {
    platform.recoverFromRawMemory.Ok? ==> platform.recoverFromRawMemory.value.partitionsMaybe.Raw?
  }

  /** Upgrading from the legacy layout, whatever schema the arguments
      request: loading traps exactly when raw recovery does, and otherwise
      `Map` stays authoritative and the next upgrade saves to raw memory
      again, so a request for `Map` afterwards finds the accounts where they
      were. */
  lemma LegacyUpgradeKeepsMapAuthoritative(memory: RawMemory, platform: Platform, args: Option<CanisterArguments>)
    requires platform.tryFromMemory(memory).None?
    requires RawRecoveryStaysRaw(platform)
    ensures FromMemory(memory, platform).Ok? <==> platform.recoverFromRawMemory.Ok?
    ensures FromMemory(memory, platform).Ok? ==>
              var s := WithArgumentsMaybe(FromMemory(memory, platform).value, args);
              SchemaLabelOf(s) == Map && PreUpgrade(s) == SaveToRawMemory
  {
  }
}
