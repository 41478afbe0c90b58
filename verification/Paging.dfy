// searchrawtransactions (node/rpcserver.go): one page over two sources, the address index
// and the memory pool, with uint32 arithmetic on the numbers to skip and to return.

module Paging {
  import opened Common

  const ENTRY_SIZE: int := 12
  const DEFAULT_COUNT: int := 100
  const MAX_COUNT: int := 10000

  function U32(n: int): (r: int)
    ensures 0 <= r < UINT32 && (n - r) % UINT32 == 0
  {
    if 0 <= n < UINT32 then n else n % UINT32
  }

  // ---------------------------------------------------------------------------
  // The page a caller asks for.

  function Page<T>(all: seq<T>, skip: int, count: int): seq<T>
    requires 0 <= skip && 0 <= count
  {
    var rest := if skip <= |all| then all[skip..] else [];
    if count <= |rest| then rest[..count] else rest
  }

  function Reversed<T>(s: seq<T>): (r: seq<T>)
    ensures |r| == |s| && forall k | 0 <= k < |s| :: r[k] == s[|s| - 1 - k]
  {
    seq(|s|, k requires 0 <= k < |s| => s[|s| - 1 - k])
  }

  datatype Found = FromPool(tx: int) | FromIndex(entry: int)

  function Pool(txs: seq<int>): (r: seq<Found>)
    ensures |r| == |txs| && forall k | 0 <= k < |txs| :: r[k] == FromPool(txs[k])
  {
    seq(|txs|, k requires 0 <= k < |txs| => FromPool(txs[k]))
  }

  function Index(entries: seq<int>): (r: seq<Found>)
    ensures |r| == |entries| && forall k | 0 <= k < |entries| :: r[k] == FromIndex(entries[k])
  {
    seq(|entries|, k requires 0 <= k < |entries| => FromIndex(entries[k]))
  }

  /** Everything about an address, in the order asked for. */
  function Everything(db: seq<int>, pool: seq<int>, reverse: bool): seq<Found> {
    if reverse then Pool(pool) + Index(Reversed(db)) else Index(db) + Pool(pool)
  }

  /** A page over two sources is a page of the first followed by what it lacks from the
      second, whose skip is what the first did not use up. */
  lemma PageOfTwo<T>(a: seq<T>, b: seq<T>, skip: int, count: int)
    requires 0 <= skip && 0 <= count
    ensures |Page(a, skip, count)| <= count
    ensures Page(a + b, skip, count)
         == Page(a, skip, count) + Page(b, skip - Min(skip, |a|), count - |Page(a, skip, count)|)
  {
    if skip <= |a| {
      assert (a + b)[skip..] == a[skip..] + b;
    } else {
      assert skip <= |a + b| ==> (a + b)[skip..] == b[skip - |a|..];
    }
  }

  // ---------------------------------------------------------------------------
  // The memory pool.

  /** fetchMempoolTxnsForAddress; None stands for the panic of a slice expression whose end
      is before its start. */
  method FetchMempoolTxns(pool: seq<int>, numToSkip: int, numRequested: int) returns (r: Option<(seq<int>, int)>)
    requires 0 <= numToSkip < UINT32 && 0 <= numRequested < UINT32 && |pool| < UINT32
    ensures r.None? <==> numToSkip <= |pool| && numToSkip + numRequested >= UINT32
    ensures r.Some? ==> r.value.0 == Page(pool, numToSkip, numRequested) && r.value.1 == Min(numToSkip, |pool|)
  {
    var numAvailable := U32(|pool|);
    if numToSkip > numAvailable {
      return Some(([], numAvailable));
    }
    var rangeEnd := U32(numToSkip + numRequested);
    if rangeEnd > numAvailable {
      rangeEnd := numAvailable;
    }
    if rangeEnd < numToSkip {
      return None;
    }
    assert pool[numToSkip..rangeEnd] == pool[numToSkip..][..rangeEnd - numToSkip];
    return Some((pool[numToSkip..rangeEnd], numToSkip));
  }

  // ---------------------------------------------------------------------------
  // The address index.

  /** The entries of an address, oldest first: a higher level holds older ones. */
  function Oldest(levels: seq<seq<int>>): seq<int> {
    if levels == [] then [] else Oldest(levels[1..]) + levels[0]
  }

  lemma {:induction false} OldestPrefix(levels: seq<seq<int>>, n: nat)
    requires n < |levels|
    ensures Oldest(levels[..n + 1]) == levels[n] + Oldest(levels[..n])
  {
    if n > 0 {
      OldestPrefix(levels[1..], n - 1);
      assert levels[1..][..n] == levels[..n + 1][1..] && levels[1..][..n - 1] == levels[..n][1..];
    } else {
      assert levels[..1][1..] == [];
    }
  }

  lemma {:induction false} OldestSuffix(levels: seq<seq<int>>, n: nat)
    requires n <= |levels|
    ensures Oldest(levels) == Oldest(levels[n..]) + Oldest(levels[..n])
  {
    if n == 0 {
      assert levels[0..] == levels;
    } else {
      OldestSuffix(levels[1..], n - 1);
      assert levels[1..][n - 1..] == levels[n..] && levels[1..][..n - 1] == levels[..n][1..];
    }
  }

  /** Where an entry is read from. */
  function Offset(entry: int): int {
    U32(entry * ENTRY_SIZE)
  }

  /** Offsets are right as far as 32 bits reach. */
  lemma OffsetIsRightIff(entry: int)
    requires 0 <= entry
    ensures Offset(entry) == entry * 12 <==> entry * 12 < 0x1_0000_0000
  {
  }

  /** How many entries are loaded when the newest `enough` are wanted: whole levels. */
  function LoadedCount(levels: seq<seq<int>>, enough: int): nat {
    if levels == [] || enough <= 0 then 0 else |levels[0]| + LoadedCount(levels[1..], enough - |levels[0]|)
  }

  /** The first loop of dbFetchAddrIndexEntries: levels are loaded until there is enough, or
      all of them when counting from the oldest. */
  method LoadLevels(levels: seq<seq<int>>, enough: int, reverse: bool) returns (loaded: seq<int>, ghost level: nat)
    requires 0 <= enough
    ensures level <= |levels| && loaded == Oldest(levels[..level])
    ensures level == |levels| || (reverse && |loaded| >= enough)
    ensures reverse && level > 0 ==> |Oldest(levels[..level - 1])| < enough
    ensures |loaded| <= |Oldest(levels)| && loaded == Oldest(levels)[|Oldest(levels)| - |loaded|..]
    ensures loaded == Oldest(levels) || (reverse && |loaded| >= enough)
    ensures reverse ==> |loaded| == LoadedCount(levels, enough)
  {
    var next := 0;
    loaded := [];
    while (!reverse || |loaded| < enough) && next < |levels|
      invariant 0 <= next <= |levels| && loaded == Oldest(levels[..next])
      invariant reverse && next > 0 ==> |Oldest(levels[..next - 1])| < enough
      invariant reverse ==> LoadedCount(levels, enough) == |loaded| + LoadedCount(levels[next..], enough - |loaded|)
    {
      OldestPrefix(levels, next);
      loaded := levels[next] + loaded;
      next := next + 1;
    }
    level := next;
    OldestSuffix(levels, level);
    assert levels[|levels|..] == [];
  }

  /** When a fetch answers what was asked.  From the newest on, the number to load is added
      up in 32 bits; if that wraps around, fewer levels are loaded. */
  predicate FetchIsRight(levels: seq<seq<int>>, numToSkip: int, numRequested: int, reverse: bool) {
    || !reverse || numToSkip + numRequested < UINT32
    || |Oldest(levels)| <= numToSkip
    || LoadedCount(levels, U32(numToSkip + numRequested)) == |Oldest(levels)|
  }

  /** Leaving out the end of a sequence shows in a page just when the page reaches it. */
  lemma PageOfPrefix<T>(all: seq<T>, loaded: int, skip: int, count: int)
    requires 0 <= loaded <= |all| && 0 <= skip && 0 <= count
    ensures Page(all[..loaded], skip, count) == Page(all, skip, count) <==>
      loaded == |all| || |all| <= skip || count == 0 || skip + count <= loaded
  {
    assert loaded == |all| ==> all[..loaded] == all;
    if skip + count <= loaded {
      assert all[..loaded][skip..][..count] == all[skip..][..count];
    } else if loaded < |all| && skip < |all| && count > 0 {
      assert |Page(all[..loaded], skip, count)| < |Page(all, skip, count)|;
    }
  }

  lemma PageByRange<T>(all: seq<T>, skip: int, count: int, load: int)
    requires 0 <= skip < |all| && 0 <= count && load == Min(|all| - skip, count)
    ensures Page(all, skip, count) == all[skip..skip + load]
  {
    assert all[skip..][..load] == all[skip..skip + load];
  }

  /** The second loop of dbFetchAddrIndexEntries. */
  method ReadEntries(entries: seq<int>, numToSkip: int, numToLoad: int, reverse: bool) returns (results: seq<int>)
    requires 0 <= numToSkip && 0 <= numToLoad && numToSkip + numToLoad <= |entries|
    requires |entries| * ENTRY_SIZE <= UINT32
    ensures results == (if reverse then Reversed(entries) else entries)[numToSkip..numToSkip + numToLoad]
  {
    results := [];
    for i := 0 to numToLoad
      invariant |results| == i
      invariant forall k | 0 <= k < i :: results[k] == (if reverse then Reversed(entries) else entries)[numToSkip + k]
    {
      var entry := if reverse then |entries| - numToSkip - i - 1 else numToSkip + i;
      OffsetIsRightIff(entry);
      results := results + [entries[Offset(entry) / ENTRY_SIZE]];
    }
  }

  /** What is loaded from the newest on, in reverse, begins as everything in reverse does. */
  lemma ReversedSuffix(all: seq<int>, n: int)
    requires 0 <= n <= |all|
    ensures Reversed(all[|all| - n..]) == Reversed(all)[..n]
  {
  }

  /** dbFetchAddrIndexEntries once the levels are loaded. */
  method PickEntries(entries: seq<int>, numToSkip: int, numRequested: int, reverse: bool)
    returns (results: seq<int>, skipped: int)
    requires 0 <= numToSkip < UINT32 && 0 <= numRequested < UINT32 && |entries| * ENTRY_SIZE <= UINT32
    ensures results == Page(if reverse then Reversed(entries) else entries, numToSkip, numRequested)
    ensures skipped == Min(numToSkip, |entries|)
  {
    var numEntries := U32(|entries|);
    if numToSkip >= numEntries {
      return [], numEntries;
    }
    if numRequested == 0 {
      return [], numToSkip;
    }
    var numToLoad := numEntries - numToSkip;
    if numToLoad > numRequested {
      numToLoad := numRequested;
    }
    results := ReadEntries(entries, numToSkip, numToLoad, reverse);
    PageByRange(if reverse then Reversed(entries) else entries, numToSkip, numRequested, numToLoad);
    skipped := numToSkip;
  }

  /** Loading stops short of the page just when the sum wraps around. */
  lemma EnoughIff(all: int, loaded: int, skip: int, count: int)
    requires 0 <= skip < UINT32 && 0 <= count < UINT32 && 0 <= loaded <= all && all * ENTRY_SIZE <= UINT32
    requires loaded == all || loaded >= U32(skip + count)
    ensures loaded == all || all <= skip || count == 0 || skip + count <= loaded
      <==> skip + count < UINT32 || all <= skip || loaded == all
  {
  }

  lemma PickIsRightIff(levels: seq<seq<int>>, entries: seq<int>, numToSkip: int, numRequested: int, reverse: bool)
    requires 0 <= numToSkip < UINT32 && 0 <= numRequested < UINT32 && |Oldest(levels)| * ENTRY_SIZE <= UINT32
    requires |entries| <= |Oldest(levels)| && entries == Oldest(levels)[|Oldest(levels)| - |entries|..]
    requires if reverse then |entries| == LoadedCount(levels, U32(numToSkip + numRequested))
      else entries == Oldest(levels)
    requires entries == Oldest(levels) || |entries| >= U32(numToSkip + numRequested)
    ensures (Page(if reverse then Reversed(entries) else entries, numToSkip, numRequested)
             == Page(if reverse then Reversed(Oldest(levels)) else Oldest(levels), numToSkip, numRequested))
      <==> FetchIsRight(levels, numToSkip, numRequested, reverse)
  {
    if reverse {
      var all := Reversed(Oldest(levels));
      ReversedSuffix(Oldest(levels), |entries|);
      assert Reversed(entries) == all[..|entries|];
      PageOfPrefix(all, |entries|, numToSkip, numRequested);
      assert |entries| == |all| ==> entries == Oldest(levels);
      EnoughIff(|Oldest(levels)|, |entries|, numToSkip, numRequested);
    }
  }

  /** dbFetchAddrIndexEntries. */
  method FetchIndexEntries(levels: seq<seq<int>>, numToSkip: int, numRequested: int, reverse: bool)
    returns (results: seq<int>, skipped: int)
    requires 0 <= numToSkip < UINT32 && 0 <= numRequested < UINT32
    requires |Oldest(levels)| * ENTRY_SIZE <= UINT32
    ensures (results == Page(if reverse then Reversed(Oldest(levels)) else Oldest(levels), numToSkip, numRequested))
      <==> FetchIsRight(levels, numToSkip, numRequested, reverse)
    ensures !reverse ==> skipped == Min(numToSkip, |Oldest(levels)|)
  {
    var entries, _ := LoadLevels(levels, U32(numToSkip + numRequested), reverse);
    results, skipped := PickEntries(entries, numToSkip, numRequested, reverse);
    PickIsRightIff(levels, entries, numToSkip, numRequested, reverse);
  }

  // ---------------------------------------------------------------------------
  // The command.

  datatype Answer = Txns(found: seq<Found>) | Nothing | CountTooLarge | NoTxInfo | Panic

  /** What the command promises. */
  function Expected(db: seq<int>, pool: seq<int>, skip: int, count: int, reverse: bool): Answer
    requires 0 <= skip && 0 <= count
  {
    var page := Page(Everything(db, pool, reverse), skip, count);
    if page == [] then NoTxInfo else Txns(page)
  }

  /** When the pool is asked for a range that does not fit 32 bits although its start is
      in the pool. */
  predicate Panics(db: seq<int>, pool: seq<int>, skip: int, count: int, reverse: bool)
    requires 0 <= skip && 0 <= count
  {
    var found := if reverse then 0 else |Page(db, skip, count)|;
    var rest := if reverse then skip else skip - Min(skip, |db|);
    found < count && rest <= |pool| && rest + count - found >= UINT32
  }

  /** What the command does, for any number to skip: it keeps its low 32 bits. */
  function Actual(db: seq<int>, pool: seq<int>, skip: int, count: int, reverse: bool): Answer
    requires 0 <= skip && 0 <= count
  {
    Searched(db, pool, U32(skip), count, reverse)
  }

  function Searched(db: seq<int>, pool: seq<int>, skip: int, count: int, reverse: bool): Answer
    requires 0 <= skip && 0 <= count
  {
    if Panics(db, pool, skip, count, reverse) then Panic else Expected(db, pool, skip, count, reverse)
  }

  /** Sizes at which no sum of sizes and counts leaves 32 bits. */
  predicate Fits(db: seq<int>, pool: seq<int>) {
    |db| * ENTRY_SIZE <= UINT32 && |pool| + MAX_COUNT < UINT32
  }

  lemma NoPanicWhenItFits(db: seq<int>, pool: seq<int>, skip: int, count: int, reverse: bool)
    requires Fits(db, pool) && 0 <= skip && 0 <= count <= MAX_COUNT
    ensures !Panics(db, pool, skip, count, reverse)
  {
  }

  /** The command answers as promised on all data exactly when the number to skip fits 32
      bits; beyond, it starts over. */
  lemma RightIffSkipFits(skip: int, count: int, reverse: bool)
    requires 0 <= skip && 1 <= count <= MAX_COUNT
    ensures skip < UINT32 <==>
      forall db, pool | Fits(db, pool) ::
        Actual(db, pool, skip, count, reverse) == Expected(db, pool, skip, count, reverse)
  {
    if skip < UINT32 {
      forall db, pool | Fits(db, pool)
        ensures Actual(db, pool, skip, count, reverse) == Expected(db, pool, skip, count, reverse)
      {
        NoPanicWhenItFits(db, pool, skip, count, reverse);
      }
    } else {
      var low := U32(skip);
      var inPool := Min(low, UINT32 - 2 * MAX_COUNT);
      var db, pool := seq(low + 1 - inPool, _ => 0), seq(inPool, _ => 0);
      assert Fits(db, pool) && |Everything(db, pool, reverse)| == low + 1;
      assert |Page(Everything(db, pool, reverse), low, count)| == 1;
      assert Page(Everything(db, pool, reverse), skip, count) == [];
      assert Actual(db, pool, skip, count, reverse) != Expected(db, pool, skip, count, reverse);
    }
  }

  /** The answer has the page of everything, entry by entry. */
  ghost predicate Finds(answer: Answer, db: seq<int>, pool: seq<int>, skip: int, count: int, reverse: bool)
    requires 0 <= skip && 0 <= count
  {
    && (answer.NoTxInfo? <==> |db| + |pool| <= skip)
    && (answer.Txns? ==>
          && |answer.found| == Min(count, |db| + |pool| - skip)
          && forall j | 0 <= j < |answer.found| :: answer.found[j] ==
               if reverse then
                 if skip + j < |pool| then FromPool(pool[skip + j]) else FromIndex(db[|db| + |pool| - 1 - (skip + j)])
               else if skip + j < |db| then FromIndex(db[skip + j])
               else FromPool(pool[skip + j - |db|]))
  }

  lemma SearchedFinds(db: seq<int>, pool: seq<int>, skip: int, count: int, reverse: bool)
    requires 0 <= skip && 0 < count
    ensures var answer := Searched(db, pool, skip, count, reverse);
      answer.Txns? || answer.NoTxInfo? ==> Finds(answer, db, pool, skip, count, reverse)
  {
    assert |Page(Everything(db, pool, reverse), skip, count)| == Max(0, Min(count, |db| + |pool| - skip));
  }

  lemma LowBits(n: int)
    requires 0 <= n
    ensures U32(n) == n % 0x1_0000_0000
  {
  }

  /** handleSearchRawTransactions, up to the list of transactions. */
  method SearchRawTransactions(levels: seq<seq<int>>, pool: seq<int>, skip: Option<int>, count: Option<int>,
                               reverse: bool)
    returns (answer: Answer)
    requires |Oldest(levels)| * ENTRY_SIZE <= UINT32 && |pool| < UINT32
    ensures var n := if count.Some? then count.value else DEFAULT_COUNT;
      var k := if skip.Some? && skip.value >= 0 then skip.value else 0;
      answer ==
        if n > MAX_COUNT then CountTooLarge
        else if n == 0 then Nothing
        else Actual(Oldest(levels), pool, k, if n < 0 then 1 else n, reverse)
    ensures answer.CountTooLarge? <==> count.Some? && count.value > 10000
    ensures answer.Nothing? <==> count == Some(0)
    // What is found, for the low 32 bits of the number to skip.
    ensures answer.Txns? || answer.NoTxInfo? ==>
              Finds(answer, Oldest(levels), pool,
                    if skip.Some? && skip.value >= 0 then skip.value % 0x1_0000_0000 else 0,
                    if count.None? then 100 else if count.value < 0 then 1 else count.value, reverse)
  {
    var numRequested := if count.Some? then count.value else DEFAULT_COUNT;
    if numRequested > MAX_COUNT {
      return CountTooLarge;
    }
    if numRequested < 0 {
      numRequested := 1;
    }
    if numRequested == 0 {
      return Nothing;
    }
    var numToSkip := 0;
    if skip.Some? {
      numToSkip := skip.value;
      if numToSkip < 0 {
        numToSkip := 0;
      }
    }
    LowBits(numToSkip);
    SearchedFinds(Oldest(levels), pool, U32(numToSkip), numRequested, reverse);
    if reverse {
      answer := PoolFirst(levels, pool, U32(numToSkip), numRequested);
    } else {
      answer := IndexFirst(levels, pool, U32(numToSkip), numRequested);
    }
  }

  /** The newest first: the pool, then the index from its end. */
  method PoolFirst(levels: seq<seq<int>>, pool: seq<int>, numToSkip: int, numRequested: int) returns (answer: Answer)
    requires |Oldest(levels)| * ENTRY_SIZE <= UINT32 && |pool| < UINT32
    requires 0 <= numToSkip < UINT32 && 1 <= numRequested <= MAX_COUNT
    ensures answer == Searched(Oldest(levels), pool, numToSkip, numRequested, true)
  {
    var fetched := FetchMempoolTxns(pool, numToSkip, U32(numRequested));
    if fetched.None? {
      return Panic;
    }
    var txns, numSkipped := fetched.value.0, fetched.value.1;
    var regions: seq<int> := [];
    if |txns| < numRequested {
      var dbSkipped;
      regions, dbSkipped := FetchIndexEntries(levels, U32(numToSkip - numSkipped), U32(numRequested - |txns|), true);
    }
    PoolThenIndex(Oldest(levels), pool, numToSkip, numRequested, txns, regions);
    var addressTxns := Pool(txns) + Index(regions);
    answer := if addressTxns == [] then NoTxInfo else Txns(addressTxns);
  }

  /** The oldest first: the index, then the pool. */
  method IndexFirst(levels: seq<seq<int>>, pool: seq<int>, numToSkip: int, numRequested: int) returns (answer: Answer)
    requires |Oldest(levels)| * ENTRY_SIZE <= UINT32 && |pool| < UINT32
    requires 0 <= numToSkip < UINT32 && 1 <= numRequested <= MAX_COUNT
    ensures answer == Searched(Oldest(levels), pool, numToSkip, numRequested, false)
  {
    var regions, numSkipped := FetchIndexEntries(levels, numToSkip, U32(numRequested), false);
    var txns: seq<int> := [];
    if |regions| < numRequested {
      var fetched := FetchMempoolTxns(pool, U32(numToSkip - numSkipped), U32(numRequested - |regions|));
      if fetched.None? {
        return Panic;
      }
      txns := fetched.value.0;
    }
    IndexThenPool(Oldest(levels), pool, numToSkip, numRequested, regions, txns);
    var addressTxns := Index(regions) + Pool(txns);
    answer := if addressTxns == [] then NoTxInfo else Txns(addressTxns);
  }

  /** A page of everything, by its two parts. */
  lemma PoolThenIndex(db: seq<int>, pool: seq<int>, skip: int, count: int, txns: seq<int>, regions: seq<int>)
    requires 0 <= skip && 0 <= count && txns == Page(pool, skip, count)
    requires if |txns| < count then regions == Page(Reversed(db), skip - Min(skip, |pool|), count - |txns|)
      else regions == []
    ensures Pool(txns) + Index(regions) == Page(Everything(db, pool, true), skip, count)
  {
    PageOfTwo(Pool(pool), Index(Reversed(db)), skip, count);
    PageOfPool(pool, skip, count);
    PageOfIndex(Reversed(db), skip - Min(skip, |pool|), count - |txns|);
  }

  lemma IndexThenPool(db: seq<int>, pool: seq<int>, skip: int, count: int, regions: seq<int>, txns: seq<int>)
    requires 0 <= skip && 0 <= count && regions == Page(db, skip, count)
    requires if |regions| < count then txns == Page(pool, skip - Min(skip, |db|), count - |regions|) else txns == []
    ensures Index(regions) + Pool(txns) == Page(Everything(db, pool, false), skip, count)
  {
    PageOfTwo(Index(db), Pool(pool), skip, count);
    PageOfIndex(db, skip, count);
    PageOfPool(pool, skip - Min(skip, |db|), count - |regions|);
  }

  lemma PageOfPool(txs: seq<int>, skip: int, count: int)
    requires 0 <= skip && 0 <= count
    ensures Page(Pool(txs), skip, count) == Pool(Page(txs, skip, count))
  {
  }

  lemma PageOfIndex(entries: seq<int>, skip: int, count: int)
    requires 0 <= skip && 0 <= count
    ensures Page(Index(entries), skip, count) == Index(Page(entries, skip, count))
  {
  }
}
