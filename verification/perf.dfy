/** The backend's diagnostic performance counters: a bounded FIFO of
    instruction-count samples, a bounded newest-first list of exceptional
    transaction ids, and a counter of periodic task runs. */
module Perf {
  import opened Wrappers
  import opened Candid
  import opened Seqs

  /** The instruction-count buffer keeps at most this many samples. */
  const MAX_INSTRUCTION_COUNTS: nat := 100
  /** `PerformanceCounts::MAX_EXCEPTIONAL_TRANSACTIONS`. */
  const MAX_EXCEPTIONAL_TRANSACTIONS: nat := 1000
  const U32_MAX: nat := 0xFFFF_FFFF

  type u64 = x: int | 0 <= x < 0x1_0000_0000_0000_0000

  /** A snapshot of the performance counters at one moment. */
  datatype PerformanceCount = PerformanceCount(timestampNsSinceEpoch: u64, name: string, instructionCount: u64)

  /** Recent snapshots, oldest first, plus the exceptional transaction ids,
      newest first. */
  datatype PerformanceCounts = PerformanceCounts(
    instructionCounts: seq<PerformanceCount>,
    exceptionalTransactions: Option<seq<u64>>,
    periodicTasksCount: Option<nat>)

  /** The part of the canister's statistics that the counters fill in, and
      two of the fields they must leave alone. */
  datatype Stats = Stats(
    performanceCounts: seq<PerformanceCount>,
    exceptionalTransactionsCount: Option<nat>,
    periodicTasksCount: Option<nat>,
    schema: Option<nat>,
    migrationCountdown: Option<nat>)

  function Default(): PerformanceCounts {
    PerformanceCounts([], None, None)
  }

  /** `u32::try_from(n).unwrap_or(u32::MAX)`. */
  function SaturatingU32(n: nat): (r: nat)
    ensures r <= U32_MAX
    ensures n <= U32_MAX ==> r == n
    ensures n > U32_MAX ==> r == U32_MAX
  {
    if n <= U32_MAX then n else U32_MAX
  }

  // ---------------------------------------------------------------------------
  // Operations
  // ---------------------------------------------------------------------------

  /** Saves a snapshot at the back, first dropping the oldest one when the
      buffer already holds 100 or more. */
  function SaveInstructionCount(p: PerformanceCounts, count: PerformanceCount): (r: PerformanceCounts)
    ensures |p.instructionCounts| <= MAX_INSTRUCTION_COUNTS ==> |r.instructionCounts| <= MAX_INSTRUCTION_COUNTS
    ensures |r.instructionCounts| >= 1 && r.instructionCounts[|r.instructionCounts| - 1] == count
    ensures |p.instructionCounts| < MAX_INSTRUCTION_COUNTS ==>
              r.instructionCounts[..|r.instructionCounts| - 1] == p.instructionCounts
    ensures |p.instructionCounts| >= MAX_INSTRUCTION_COUNTS ==>
              |r.instructionCounts| == |p.instructionCounts|
              && r.instructionCounts[..|r.instructionCounts| - 1] == p.instructionCounts[1..]
    ensures r.exceptionalTransactions == p.exceptionalTransactions
    ensures r.periodicTasksCount == p.periodicTasksCount
  {
    var kept := if |p.instructionCounts| >= MAX_INSTRUCTION_COUNTS then p.instructionCounts[1..] else p.instructionCounts;
    p.(instructionCounts := kept + [count])
  }

  /** `record_instruction_count`: takes a snapshot labelled `name`; the clock
      and the instruction counter are read by the caller and passed in. The
      older snapshots stay in order, less the oldest when the buffer is full,
      and nothing else changes. */
  function RecordInstructionCount(p: PerformanceCounts, name: string, now: u64, instructions: u64): (r: PerformanceCounts)
    ensures |r.instructionCounts| >= 1
    ensures r.instructionCounts[|r.instructionCounts| - 1] == PerformanceCount(now, name, instructions)
    ensures r.instructionCounts[..|r.instructionCounts| - 1]
            == if |p.instructionCounts| >= MAX_INSTRUCTION_COUNTS then p.instructionCounts[1..] else p.instructionCounts
    ensures |p.instructionCounts| <= MAX_INSTRUCTION_COUNTS ==> |r.instructionCounts| <= MAX_INSTRUCTION_COUNTS
    ensures r.exceptionalTransactions == p.exceptionalTransactions
    ensures r.periodicTasksCount == p.periodicTasksCount
  {
    SaveInstructionCount(p, PerformanceCount(now, name, instructions))
  }

  /** Fills the performance fields of `stats`; the count of exceptional
      transactions saturates at `u32::MAX`. */
  function GetStats(p: PerformanceCounts, stats: Stats): (r: Stats)
    ensures r.performanceCounts == p.instructionCounts
    ensures p.exceptionalTransactions.None? ==> r.exceptionalTransactionsCount == Some(0)
    ensures p.exceptionalTransactions.Some? && |p.exceptionalTransactions.value| <= U32_MAX ==>
              r.exceptionalTransactionsCount == Some(|p.exceptionalTransactions.value|)
    ensures p.exceptionalTransactions.Some? && |p.exceptionalTransactions.value| > U32_MAX ==>
              r.exceptionalTransactionsCount == Some(U32_MAX)
    ensures r.periodicTasksCount == p.periodicTasksCount
    ensures r.schema == stats.schema && r.migrationCountdown == stats.migrationCountdown
  {
    var count := match p.exceptionalTransactions
      case None => 0
      case Some(ids) => SaturatingU32(|ids|);
    stats.(performanceCounts := p.instructionCounts,
           exceptionalTransactionsCount := Some(count),
           periodicTasksCount := p.periodicTasksCount)
  }

  /** Pushes an exceptional transaction id at the front and keeps at most
      1000 ids, dropping from the back; an absent list starts empty. */
  function RecordExceptionalTransactionId(p: PerformanceCounts, transactionId: u64): (r: PerformanceCounts)
    ensures r.exceptionalTransactions.Some?
    ensures var ids := r.exceptionalTransactions.value;
            && 1 <= |ids| <= MAX_EXCEPTIONAL_TRANSACTIONS
            && ids[0] == transactionId
    ensures p.exceptionalTransactions.None? ==> r.exceptionalTransactions == Some([transactionId])
    ensures p.exceptionalTransactions.Some? ==>
              var before := p.exceptionalTransactions.value;
              var ids := r.exceptionalTransactions.value;
              && |ids| == (if |before| < MAX_EXCEPTIONAL_TRANSACTIONS then |before| + 1 else MAX_EXCEPTIONAL_TRANSACTIONS)
              && forall i :: 1 <= i < |ids| ==> ids[i] == before[i - 1]
    ensures r.instructionCounts == p.instructionCounts
    ensures r.periodicTasksCount == p.periodicTasksCount
  {
    var before := p.exceptionalTransactions.GetOr([]);
    assert [transactionId] + [] == [transactionId];
    p.(exceptionalTransactions := Some(Take([transactionId] + before, MAX_EXCEPTIONAL_TRANSACTIONS)))
  }

  function IncrementPeriodicTasksRun(p: PerformanceCounts): (r: PerformanceCounts)
    ensures p.periodicTasksCount.None? ==> r.periodicTasksCount == Some(1)
    ensures p.periodicTasksCount.Some? ==> r.periodicTasksCount == Some(p.periodicTasksCount.value + 1)
    ensures r.instructionCounts == p.instructionCounts
    ensures r.exceptionalTransactions == p.exceptionalTransactions
  {
    p.(periodicTasksCount := Some(p.periodicTasksCount.GetOr(0) + 1))
  }

  /** Serialises the counters; a failed encoding yields no bytes at all. */
  function Encode(p: PerformanceCounts, codec: Codec<PerformanceCounts>): (r: seq<byte>)
    ensures codec.encode(p).Err? ==> r == []
    ensures codec.encode(p).Ok? ==> r == codec.encode(p).value
  {
    match codec.encode(p)
    case Ok(bytes) => bytes
    case Err(_) => []
  }

  /** Parses the counters, never failing: undecodable bytes give the empty
      default structure. */
  function Decode(bytes: seq<byte>, codec: Codec<PerformanceCounts>): (r: Result<PerformanceCounts>)
    ensures r.Ok?
    ensures codec.decode(bytes).Err? ==> r.value == Default()
    ensures codec.decode(bytes).Ok? ==> r.value == codec.decode(bytes).value
  {
    match codec.decode(bytes)
    case Ok(p) => Ok(p)
    case Err(_) => Ok(Default())
  }

  // ---------------------------------------------------------------------------
  // Repeated operations and their reference behaviour
  // ---------------------------------------------------------------------------

  function SaveAll(p: PerformanceCounts, counts: seq<PerformanceCount>): PerformanceCounts
    decreases |counts|
  {
    if |counts| == 0 then p else SaveAll(SaveInstructionCount(p, counts[0]), counts[1..])
  }

  function RecordAll(p: PerformanceCounts, ids: seq<u64>): PerformanceCounts
    decreases |ids|
  {
    if |ids| == 0 then p else RecordAll(RecordExceptionalTransactionId(p, ids[0]), ids[1..])
  }

  function IncrementTimes(p: PerformanceCounts, k: nat): PerformanceCounts
    decreases k
  {
    if k == 0 then p else IncrementTimes(IncrementPeriodicTasksRun(p), k - 1)
  }

  lemma ConsCons<T>(a: seq<T>, s: seq<T>)
    requires |s| > 0
    ensures a + [s[0]] + s[1..] == a + s
  {
    assert s == [s[0]] + s[1..];
  }

  /** One save keeps the last 100 of the buffer extended by the sample. */
  lemma SaveIsLastN(p: PerformanceCounts, count: PerformanceCount)
    requires |p.instructionCounts| <= MAX_INSTRUCTION_COUNTS
    ensures SaveInstructionCount(p, count).instructionCounts == LastN(p.instructionCounts + [count], MAX_INSTRUCTION_COUNTS)
  {
    var s := p.instructionCounts + [count];
    if |p.instructionCounts| == MAX_INSTRUCTION_COUNTS {
      assert s[|s| - MAX_INSTRUCTION_COUNTS..] == p.instructionCounts[1..] + [count];
    }
  }

  /** However many samples are saved, the buffer holds exactly the latest
      (at most) 100 of everything it held and everything saved, in order. */
  lemma {:induction false} SaveAllKeepsLatest(p: PerformanceCounts, counts: seq<PerformanceCount>)
    requires |p.instructionCounts| <= MAX_INSTRUCTION_COUNTS
    ensures SaveAll(p, counts).instructionCounts == LastN(p.instructionCounts + counts, MAX_INSTRUCTION_COUNTS)
    ensures SaveAll(p, counts).exceptionalTransactions == p.exceptionalTransactions
    ensures SaveAll(p, counts).periodicTasksCount == p.periodicTasksCount
    decreases |counts|
  {
    var a := p.instructionCounts;
    if |counts| == 0 {
      assert a + counts == a;
    } else {
      var c, rest := counts[0], counts[1..];
      var q := SaveInstructionCount(p, c);
      SaveIsLastN(p, c);
      SaveAllKeepsLatest(q, rest);
      LastNOfLastN(a + [c], rest, MAX_INSTRUCTION_COUNTS);
      ConsCons(a, counts);
    }
  }

  /** After recording a non-empty run of ids, the list is every id recorded
      so far, newest first, cut to the first 1000. */
  lemma {:induction false} RecordAllKeepsNewest(p: PerformanceCounts, ids: seq<u64>)
    requires |ids| > 0
    ensures RecordAll(p, ids).exceptionalTransactions
            == Some(Take(Reverse(ids) + p.exceptionalTransactions.GetOr([]), MAX_EXCEPTIONAL_TRANSACTIONS))
    ensures RecordAll(p, ids).instructionCounts == p.instructionCounts
    decreases |ids|
  {
    var q := RecordExceptionalTransactionId(p, ids[0]);
    var before := p.exceptionalTransactions.GetOr([]);
    assert Reverse(ids) == Reverse(ids[1..]) + [ids[0]];
    if |ids| == 1 {
      assert Reverse(ids) == [ids[0]];
    } else {
      RecordAllKeepsNewest(q, ids[1..]);
      TakeOfTake(Reverse(ids[1..]), [ids[0]] + before, MAX_EXCEPTIONAL_TRANSACTIONS);
      assert Reverse(ids[1..]) + ([ids[0]] + before) == Reverse(ids) + before;
    }
  }

  /** Counting `k` runs from any starting point adds exactly `k`. */
  lemma {:induction false} IncrementTimesCounts(p: PerformanceCounts, k: nat)
    requires k > 0
    ensures IncrementTimes(p, k).periodicTasksCount == Some(p.periodicTasksCount.GetOr(0) + k)
    ensures IncrementTimes(p, k).instructionCounts == p.instructionCounts
    decreases k
  {
    if k > 1 {
      IncrementTimesCounts(IncrementPeriodicTasksRun(p), k - 1);
    }
  }

  /** The statistics report exactly how many ids have been recorded since
      the list was absent, up to the 1000 kept. */
  lemma StatsCountExceptionalTransactions(p: PerformanceCounts, ids: seq<u64>, stats: Stats)
    requires p.exceptionalTransactions.None?
    ensures GetStats(RecordAll(p, ids), stats).exceptionalTransactionsCount
            == Some(if |ids| <= MAX_EXCEPTIONAL_TRANSACTIONS then |ids| else MAX_EXCEPTIONAL_TRANSACTIONS)
  {
    if |ids| > 0 {
      RecordAllKeepsNewest(p, ids);
      assert Reverse(ids) + [] == Reverse(ids);
    }
  }

  /** Counters that the codec can encode come back unchanged. */
  lemma DecodeEncodeRoundTrip(p: PerformanceCounts, codec: Codec<PerformanceCounts>)
    requires RoundTrips(codec)
    requires codec.encode(p).Ok?
    ensures Decode(Encode(p, codec), codec) == Ok(p)
  {
  }

  /** When encoding fails the blob is empty, and an empty blob that does not
      decode restores the blank default rather than failing. */
  lemma EncodeFailureRestoresDefault(p: PerformanceCounts, codec: Codec<PerformanceCounts>)
    requires codec.encode(p).Err?
    requires codec.decode([]).Err?
    ensures Decode(Encode(p, codec), codec) == Ok(Default())
  {
  }
}
