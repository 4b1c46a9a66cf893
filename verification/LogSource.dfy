// The confirmed EVM log source: a cursor loop over a chain that may reorganise between polls.
// Hashes are compared in one case; the chain does not move within one poll.
module LogSource {
  import opened Wrappers

  datatype Log = Log(id: string, index: nat)

  // `logs` are the block's logs that match the source's filter.
  datatype Block = Block(hash: string, timestamp: nat, logs: seq<Log>)

  type Chain = seq<Block>

  datatype Options = Options(fromBlock: nat, confirmations: nat, maxBlockRange: nat, maxReorgDepth: nat)

  predicate Valid(o: Options) {
    o.confirmations <= 256 && o.maxBlockRange >= 1 && 1 <= o.maxReorgDepth <= 256
  }

  datatype Occurrence = Occurrence(id: string, number: nat, hash: string, index: nat)

  datatype Entry = Entry(number: nat, hash: string, ids: seq<string>)

  datatype Cursor = Cursor(nextBlock: nat, history: seq<Entry>)

  // What the worker finds stored for a source: nothing yet, the empty object that a failed
  // first poll leaves behind, or a cursor.
  datatype Saved = Absent | Empty | At(cursor: Cursor)

  datatype Batch = Batch(events: seq<Occurrence>, reorged: seq<string>, cursor: Cursor)

  const RANGES_PER_POLL := 5
  const HISTORY_LIMIT := 256
  const MAX_SAFE_INTEGER := 9007199254740991

  // ---- the chain -----------------------------------------------------------------------

  function BlockLogs(block: Block, number: nat): (r: seq<Occurrence>)
    ensures |r| == |block.logs|
  {
    seq(|block.logs|, i requires 0 <= i < |block.logs| => Occurrence(block.logs[i].id, number, block.hash,
        block.logs[i].index))
  }

  // The logs of blocks lo, ..., hi-1 in chain order.
  function ChainLogs(chain: Chain, lo: nat, hi: nat): seq<Occurrence>
    requires lo < hi ==> hi <= |chain|
    decreases hi
  {
    if lo >= hi then [] else ChainLogs(chain, lo, hi - 1) + BlockLogs(chain[hi - 1], hi - 1)
  }

  predicate OnChain(chain: Chain, lo: nat, hi: nat, e: Occurrence) {
    lo <= e.number < hi <= |chain| && e.hash == chain[e.number].hash && Log(e.id, e.index) in chain[e.number].logs
  }

  lemma {:induction false} ChainLogsAreOnChain(chain: Chain, lo: nat, hi: nat, e: Occurrence)
    requires lo < hi ==> hi <= |chain|
    ensures e in ChainLogs(chain, lo, hi) <==> OnChain(chain, lo, hi, e)
    decreases hi
  {
    if lo < hi {
      ChainLogsAreOnChain(chain, lo, hi - 1, e);
      var last := BlockLogs(chain[hi - 1], hi - 1);
      if e.number == hi - 1 && OnChain(chain, lo, hi, e) {
        var i :| 0 <= i < |chain[hi - 1].logs| && chain[hi - 1].logs[i] == Log(e.id, e.index);
        assert last[i] == e;
      }
    }
  }

  lemma {:induction false} ChainLogsSplit(chain: Chain, lo: nat, mid: nat, hi: nat)
    requires lo <= mid <= hi && (lo < hi ==> hi <= |chain|)
    ensures ChainLogs(chain, lo, hi) == ChainLogs(chain, lo, mid) + ChainLogs(chain, mid, hi)
    decreases hi
  {
    if mid < hi {
      ChainLogsSplit(chain, lo, mid, hi - 1);
    }
  }

  lemma {:induction false} ChainLogsExtend(chain: Chain, longer: Chain, lo: nat, hi: nat)
    requires chain <= longer && (lo < hi ==> hi <= |chain|)
    ensures ChainLogs(chain, lo, hi) == ChainLogs(longer, lo, hi)
    decreases hi
  {
    if lo < hi {
      ChainLogsExtend(chain, longer, lo, hi - 1);
    }
  }

  // ---- the order of events -------------------------------------------------------------

  predicate Before(a: Occurrence, b: Occurrence) {
    a.number < b.number || (a.number == b.number && a.index < b.index)
  }

  predicate Ascending(s: seq<Occurrence>) {
    forall i, j :: 0 <= i < j < |s| ==> Before(s[i], s[j])
  }

  predicate Sorted(s: seq<Occurrence>) {
    forall i, j :: 0 <= i < j < |s| ==> !Before(s[j], s[i])
  }

  // A log index is unique within its block.
  predicate WellFormed(chain: Chain) {
    forall n, i, j :: 0 <= n < |chain| && 0 <= i < j < |chain[n].logs|
                      ==> chain[n].logs[i].index < chain[n].logs[j].index
  }

  lemma {:induction false} ChainLogsAscend(chain: Chain, lo: nat, hi: nat)
    requires WellFormed(chain) && (lo < hi ==> hi <= |chain|)
    ensures Ascending(ChainLogs(chain, lo, hi))
    decreases hi
  {
    if lo < hi {
      ChainLogsAscend(chain, lo, hi - 1);
      assert ChainLogs(chain, lo, hi) == ChainLogs(chain, lo, hi - 1) + BlockLogs(chain[hi - 1], hi - 1);
      var before, last := ChainLogs(chain, lo, hi - 1), BlockLogs(chain[hi - 1], hi - 1);
      forall e | e in before ensures e.number < hi - 1 {
        ChainLogsAreOnChain(chain, lo, hi - 1, e);
      }
      BlockLogsAscend(chain, hi - 1);
      hide ChainLogs, WellFormed;
      JoinAscends(before, last, hi - 1);
    }
  }

  lemma BlockLogsAscend(chain: Chain, n: nat)
    requires WellFormed(chain) && n < |chain|
    ensures Ascending(BlockLogs(chain[n], n)) && forall e :: e in BlockLogs(chain[n], n) ==> e.number == n
  {
  }

  lemma JoinAscends(a: seq<Occurrence>, b: seq<Occurrence>, n: nat)
    requires Ascending(a) && Ascending(b) && (forall e :: e in a ==> e.number < n)
             && (forall e :: e in b ==> e.number == n)
    ensures Ascending(a + b)
  {
  }

  // Insert after everything that is not later: the stable order of a library sort.
  function Insert(s: seq<Occurrence>, e: Occurrence): seq<Occurrence> {
    if s == [] then [e]
    else if Before(e, s[|s| - 1]) then Insert(s[..|s| - 1], e) + [s[|s| - 1]]
    else s + [e]
  }

  function InOrder(s: seq<Occurrence>): seq<Occurrence> {
    if s == [] then [] else Insert(InOrder(s[..|s| - 1]), s[|s| - 1])
  }

  lemma {:induction false} InsertAdds(s: seq<Occurrence>, e: Occurrence)
    ensures multiset(Insert(s, e)) == multiset(s) + multiset{e}
  {
    if s != [] && Before(e, s[|s| - 1]) {
      InsertAdds(s[..|s| - 1], e);
      assert s == s[..|s| - 1] + [s[|s| - 1]];
    }
  }

  lemma SortedBack(s: seq<Occurrence>, e: Occurrence)
    requires Sorted(s) && forall x :: x in s ==> !Before(e, x)
    ensures Sorted(s + [e])
  {
  }

  lemma LastIsLatest(s: seq<Occurrence>, e: Occurrence)
    requires Sorted(s) && (s != [] ==> !Before(e, s[|s| - 1]))
    ensures forall x :: x in s ==> !Before(e, x)
  {
  }

  lemma {:induction false} InsertKeepsSorted(s: seq<Occurrence>, e: Occurrence)
    requires Sorted(s)
    ensures Sorted(Insert(s, e))
  {
    if s != [] && Before(e, s[|s| - 1]) {
      var rest, last := s[..|s| - 1], s[|s| - 1];
      InsertKeepsSorted(rest, e);
      InsertAdds(rest, e);
      forall x | x in Insert(rest, e) ensures !Before(last, x) {
        assert x in multiset(Insert(rest, e));
        assert x in rest || x == e;
      }
      SortedBack(Insert(rest, e), last);
    } else {
      LastIsLatest(s, e);
      SortedBack(s, e);
    }
  }

  lemma {:induction false} InOrderSorts(s: seq<Occurrence>)
    ensures Sorted(InOrder(s)) && multiset(InOrder(s)) == multiset(s)
  {
    if s == [] {
    } else {
      var rest, last := s[..|s| - 1], s[|s| - 1];
      InOrderSorts(rest);
      InsertKeepsSorted(InOrder(rest), last);
      InsertAdds(InOrder(rest), last);
      assert s == rest + [last];
    }
  }

  lemma SameFirst(a: seq<Occurrence>, b: seq<Occurrence>)
    requires multiset(a) == multiset(b) && Sorted(a) && Ascending(b) && a != [] && b != []
    ensures a[0] == b[0]
  {
    assert a[0] in multiset(b) && b[0] in multiset(a);
    assert a[0] in b && b[0] in a;
    var k :| 0 <= k < |b| && b[k] == a[0];
    var m :| 0 <= m < |a| && a[m] == b[0];
    if k > 0 {
      assert Before(b[0], b[k]);
    }
  }

  lemma TailsAgree(a: seq<Occurrence>, b: seq<Occurrence>)
    requires multiset(a) == multiset(b) && a != [] && b != [] && a[0] == b[0]
    ensures multiset(a[1..]) == multiset(b[1..])
  {
    assert a == [a[0]] + a[1..] && b == [b[0]] + b[1..];
    assert multiset(a[1..]) == multiset(a) - multiset{a[0]};
  }

  lemma {:induction false} SortedIsUnique(a: seq<Occurrence>, b: seq<Occurrence>)
    requires multiset(a) == multiset(b) && Sorted(a) && Ascending(b)
    ensures a == b
    decreases |a|
  {
    assert |a| == |multiset(a)| == |multiset(b)| == |b|;
    if a == [] {
    } else {
      SameFirst(a, b);
      TailsAgree(a, b);
      SortedIsUnique(a[1..], b[1..]);
      assert a == [a[0]] + a[1..] && b == [b[0]] + b[1..];
    }
  }

  // ---- the history check ---------------------------------------------------------------

  function SafeHead(o: Options, chain: Chain): int {
    |chain| - 1 - o.confirmations
  }

  predicate StaleHead(o: Options, head: Block, now: int) {
    || head.timestamp * 1000 > MAX_SAFE_INTEGER
    || head.timestamp * 1000 > now + 30000
    || head.timestamp * 1000 < now - (120 + o.confirmations * 15) * 1000
  }

  predicate Diverges(chain: Chain, safe: int, e: Entry)
    requires safe < |chain|
  {
    e.number <= safe && chain[e.number].hash != e.hash
  }

  // The lowest tracked block that changed.
  function Lowest(history: seq<Entry>, chain: Chain, safe: int): (r: Option<nat>)
    requires safe < |chain|
    ensures forall e :: e in history && Diverges(chain, safe, e) ==> r.Some? && r.value <= e.number
    ensures r.Some? ==> exists e :: e in history && Diverges(chain, safe, e) && e.number == r.value
  {
    if history == [] then None
    else
      var n := |history| - 1;
      var rest := Lowest(history[..n], chain, safe);
      if !Diverges(chain, safe, history[n]) then rest
      else if rest.Some? && rest.value <= history[n].number then rest
      else assert history[n] in history; Some(history[n].number)
  }

  function StartBlock(cursor: Cursor, chain: Chain, safe: int): nat
    requires safe < |chain|
  {
    var first := Lowest(cursor.history, chain, safe);
    if first.Some? && first.value < cursor.nextBlock then first.value else cursor.nextBlock
  }

  predicate KeptEntry(cursor: Cursor, chain: Chain, safe: int, e: Entry)
    requires safe < |chain|
  {
    var first := Lowest(cursor.history, chain, safe);
    e in cursor.history && (first.Some? ==> e.number < first.value)
  }

  predicate Reorged(cursor: Cursor, chain: Chain, safe: int, id: string)
    requires safe < |chain|
  {
    exists e :: e in cursor.history && Diverges(chain, safe, e) && id in e.ids
  }

  predicate HasLog(block: Block, id: string) {
    exists l :: l in block.logs && l.id == id
  }

  // An entry that records a block of the chain and all its matching logs.
  ghost predicate Records(chain: Chain, lo: nat, hi: nat, e: Entry) {
    && lo <= e.number < hi <= |chain| && e.hash == chain[e.number].hash
    && forall id :: id in e.ids <==> HasLog(chain[e.number], id)
  }

  function EndBlock(o: Options, start: nat, safe: int): nat
    requires safe >= 0
  {
    if start > safe then start
    else if start + RANGES_PER_POLL * o.maxBlockRange > safe then safe + 1
    else start + RANGES_PER_POLL * o.maxBlockRange
  }

  // ---- what one poll promises ------------------------------------------------------------

  ghost predicate HistoryAfter(o: Options, chain: Chain, cursor: Cursor, start: nat, next: Cursor)
    requires 0 <= SafeHead(o, chain) && Valid(o)
  {
    var safe := SafeHead(o, chain);
    && |next.history| <= HISTORY_LIMIT
    && (forall e :: e in next.history ==> KeptEntry(cursor, chain, safe, e) || Records(chain, start, next.nextBlock, e))
    && (forall e :: e in next.history ==> e.number >= safe - o.maxReorgDepth)
    && Distinct(next.history)
    && (|next.history| < HISTORY_LIMIT ==>
          && Tracks(chain, start, next.nextBlock, safe - o.maxReorgDepth, next.history)
          && Retains(chain, cursor, safe, safe - o.maxReorgDepth, next.history))
  }

  predicate Distinct(history: seq<Entry>) {
    forall i, j :: 0 <= i < j < |history| ==> !SameKey(history[i], history[j])
  }

  ghost predicate Covers(history: seq<Entry>, e: Entry) {
    exists x :: x in history && SameKey(x, e)
  }

  // No entry below the lowest changed block is forgotten before it is deeper than a reorg may reach.
  ghost predicate Retains(chain: Chain, cursor: Cursor, safe: int, floor: int, history: seq<Entry>)
    requires safe < |chain|
  {
    forall e :: KeptEntry(cursor, chain, safe, e) && e.number >= floor ==> Covers(history, e)
  }

  // Every block of lo, ..., hi-1 with a matching log, down to `floor`, has its entry.
  ghost predicate Tracks(chain: Chain, lo: nat, hi: nat, floor: int, history: seq<Entry>) {
    forall n {:trigger chain[n]} :: lo <= n < hi <= |chain| && n >= floor && chain[n].logs != []
                                    ==> HasEntry(chain, lo, hi, history, n)
  }

  ghost predicate Polls(o: Options, chain: Chain, cursor: Cursor, batch: Batch)
    requires Valid(o) && chain != []
  {
    var safe := SafeHead(o, chain);
    if safe < 0 then batch == Batch([], [], cursor)
    else
      var start := StartBlock(cursor, chain, safe);
      && batch.cursor.nextBlock == EndBlock(o, start, safe)
      && batch.events == ChainLogs(chain, start, batch.cursor.nextBlock)
      && HistoryAfter(o, chain, cursor, start, batch.cursor)
      && (forall id :: id in batch.reorged <==> Reorged(cursor, chain, safe, id))
  }

  // ---- grouping a reply by block -------------------------------------------------------

  predicate SameKey(a: Entry, b: Entry) {
    a.number == b.number && a.hash == b.hash
  }

  function Find(groups: seq<Entry>, number: nat, hash: string): (r: Option<nat>)
    ensures r.Some? ==> r.value < |groups| && groups[r.value].number == number && groups[r.value].hash == hash
    ensures r.None? ==> forall g :: g in groups ==> g.number != number || g.hash != hash
  {
    if groups == [] then None
    else if groups[|groups| - 1].number == number && groups[|groups| - 1].hash == hash then Some(|groups| - 1)
    else Find(groups[..|groups| - 1], number, hash)
  }

  // The grouping map after one more log.
  function AddToGroups(groups: seq<Entry>, e: Occurrence): seq<Entry> {
    var found := Find(groups, e.number, e.hash);
    if found.None? then groups + [Entry(e.number, e.hash, [e.id])]
    else groups[found.value := groups[found.value].(ids := groups[found.value].ids + [e.id])]
  }

  ghost predicate HasId(logs: seq<Occurrence>, g: Entry, id: string) {
    exists e :: e in logs && e.number == g.number && e.hash == g.hash && e.id == id
  }

  ghost predicate HasGroup(groups: seq<Entry>, e: Occurrence) {
    exists g :: g in groups && g.number == e.number && g.hash == e.hash
  }

  ghost predicate Grouped(groups: seq<Entry>, logs: seq<Occurrence>) {
    && (forall i, j :: 0 <= i < j < |groups| ==> !SameKey(groups[i], groups[j]))
    && (forall g, id :: g in groups ==> (id in g.ids <==> HasId(logs, g, id)))
    && (forall g :: g in groups ==> g.ids != [])
    && (forall e :: e in logs ==> HasGroup(groups, e))
  }

  lemma GroupOneMore(groups: seq<Entry>, logs: seq<Occurrence>, e: Occurrence)
    requires Grouped(groups, logs)
    ensures Grouped(AddToGroups(groups, e), logs + [e])
  {
    var after, all, found := AddToGroups(groups, e), logs + [e], Find(groups, e.number, e.hash);
    var at := if found.Some? then found.value else |groups|;
    assert after[at].number == e.number && after[at].hash == e.hash;
    forall x | x in all ensures HasGroup(after, x) {
      if x == e {
        assert after[at] in after;
      } else {
        var i :| 0 <= i < |groups| && groups[i].number == x.number && groups[i].hash == x.hash;
        assert after[i] in after;
      }
    }
    forall i, id | 0 <= i < |after| ensures id in after[i].ids <==> HasId(all, after[i], id) {
      if i < |groups| {
        assert groups[i] in groups;
        assert id in groups[i].ids <==> HasId(logs, groups[i], id);
      } else {
        assert HasId(logs, after[i], id) ==> HasGroup(groups, e);
      }
      assert i == at ==> HasId(all, after[i], e.id);
    }
  }

  // A Map built from the entries keeps the first position and the last value of each key.
  function Deduplicated(history: seq<Entry>): (r: seq<Entry>)
    ensures forall e :: e in r ==> e in history
  {
    if history == [] then []
    else Put(Deduplicated(history[..|history| - 1]), history[|history| - 1])
  }

  function Put(entries: seq<Entry>, e: Entry): (r: seq<Entry>)
    ensures e in r && forall x :: x in r ==> x in entries || x == e
    ensures forall x :: x in entries && !SameKey(x, e) ==> x in r
  {
    if entries == [] then [e]
    else if SameKey(entries[0], e) then [e] + entries[1..]
    else [entries[0]] + Put(entries[1..], e)
  }

  function Recent(history: seq<Entry>, floor: int): (r: seq<Entry>)
    ensures forall e :: e in r <==> e in history && e.number >= floor
  {
    if history == [] then []
    else
      var rest := Recent(history[..|history| - 1], floor);
      if history[|history| - 1].number >= floor then rest + [history[|history| - 1]] else rest
  }

  lemma PutIsDistinct(entries: seq<Entry>, e: Entry)
    requires Distinct(entries)
    ensures Distinct(Put(entries, e))
    decreases |entries|
  {
    if entries == [] {
    } else if SameKey(entries[0], e) {
      assert forall i :: 1 <= i < |entries| ==> entries[1..][i - 1] == entries[i];
    } else {
      PutIsDistinct(entries[1..], e);
      var rest := Put(entries[1..], e);
      forall i | 0 <= i < |rest| ensures !SameKey(entries[0], rest[i]) {
        assert rest[i] in entries[1..] || rest[i] == e;
      }
    }
  }

  // Every key keeps one entry.
  lemma {:induction false} DeduplicatedCovers(history: seq<Entry>)
    ensures Distinct(Deduplicated(history)) && forall e :: e in history ==> Covers(Deduplicated(history), e)
    decreases |history|
  {
    if history == [] {
    } else {
      var rest, last := history[..|history| - 1], history[|history| - 1];
      DeduplicatedCovers(rest);
      PutIsDistinct(Deduplicated(rest), last);
      assert history == rest + [last];
      forall e | e in history ensures Covers(Deduplicated(history), e) {
        if e in rest {
          var x :| x in Deduplicated(rest) && SameKey(x, e);
          assert SameKey(x, last) ==> SameKey(last, e);
        }
      }
    }
  }

  lemma {:induction false} RecentIsDistinct(history: seq<Entry>, floor: int)
    requires Distinct(history)
    ensures Distinct(Recent(history, floor))
    decreases |history|
  {
    if history == [] {
    } else {
      var rest, last := history[..|history| - 1], history[|history| - 1];
      RecentIsDistinct(rest, floor);
      forall e | e in Recent(rest, floor) ensures !SameKey(e, last) {
        assert e in rest;
      }
    }
  }

  lemma TrimmedCovers(history: seq<Entry>, floor: int)
    ensures Distinct(Trimmed(history, floor))
    ensures |Trimmed(history, floor)| < HISTORY_LIMIT ==> forall e :: e in history && e.number >= floor
                                                                      ==> Covers(Trimmed(history, floor), e)
  {
    DeduplicatedCovers(history);
    RecentIsDistinct(Deduplicated(history), floor);
    var recent := Recent(Deduplicated(history), floor);
    if |Trimmed(history, floor)| < HISTORY_LIMIT {
      assert Trimmed(history, floor) == recent;
      forall e | e in history && e.number >= floor ensures Covers(recent, e) {
        var x :| x in Deduplicated(history) && SameKey(x, e);
      }
    }
  }

  lemma {:induction false} LatestStays(kept: seq<Entry>, added: seq<Entry>, e: Entry)
    requires e in added
    ensures exists x :: x in added && SameKey(x, e) && x in Deduplicated(kept + added)
    decreases |added|
  {
    var n := |added| - 1;
    assert (kept + added)[..|kept + added| - 1] == kept + added[..n];
    if SameKey(added[n], e) {
      assert added[n] in added;
    } else {
      LatestStays(kept, added[..n], e);
    }
  }

  function Below(history: seq<Entry>, first: nat): (r: seq<Entry>)
    ensures forall e :: e in r <==> e in history && e.number < first
  {
    if history == [] then []
    else
      var rest := Below(history[..|history| - 1], first);
      if history[|history| - 1].number < first then rest + [history[|history| - 1]] else rest
  }

  // ---- one poll --------------------------------------------------------------------------

  // The node answers a range with the logs of its blocks, in whatever order.
  ghost predicate Honest(getLogs: (nat, nat) -> seq<Occurrence>, chain: Chain) {
    forall lo: nat, hi: nat {:trigger getLogs(lo, hi)} :: lo <= hi < |chain|
                                                          ==> multiset(getLogs(lo, hi)) == multiset(ChainLogs(chain,
                                                              lo, hi + 1))
  }

  lemma GroupsRecord(chain: Chain, lo: nat, hi: nat, reply: seq<Occurrence>, groups: seq<Entry>)
    requires lo <= hi <= |chain| && multiset(reply) == multiset(ChainLogs(chain, lo, hi)) && Grouped(groups, reply)
    ensures forall g :: g in groups ==> Records(chain, lo, hi, g)
    ensures forall n :: lo <= n < hi && chain[n].logs != [] ==> HasEntry(chain, lo, hi, groups, n)
  {
    forall e ensures e in reply <==> OnChain(chain, lo, hi, e) {
      assert e in reply <==> e in multiset(reply);
      ChainLogsAreOnChain(chain, lo, hi, e);
    }
    forall g | g in groups ensures Records(chain, lo, hi, g) {
      assert HasId(reply, g, g.ids[0]);
      forall id ensures HasId(reply, g, id) <==> HasLog(chain[g.number], id) {
        if HasLog(chain[g.number], id) {
          var l :| l in chain[g.number].logs && l.id == id;
          assert Occurrence(id, g.number, g.hash, l.index) in reply;
        }
      }
    }
    forall n | lo <= n < hi && chain[n].logs != [] ensures HasEntry(chain, lo, hi, groups, n) {
      var l := chain[n].logs[0];
      assert Occurrence(l.id, n, chain[n].hash, l.index) in reply;
    }
  }

  ghost predicate HasEntry(chain: Chain, lo: nat, hi: nat, history: seq<Entry>, n: nat) {
    exists e :: e in history && e.number == n && Records(chain, lo, hi, e)
  }

  function CursorOf(o: Options, saved: Saved): Cursor {
    if saved.At? then saved.cursor else Cursor(o.fromBlock, [])
  }

  // The stored history after a scan: one entry a block, recent blocks only, a bounded number.
  function Trimmed(history: seq<Entry>, floor: int): (r: seq<Entry>)
    ensures |r| <= HISTORY_LIMIT && forall e :: e in r ==> e in history && e.number >= floor
  {
    var recent := Recent(Deduplicated(history), floor);
    if |recent| > HISTORY_LIMIT then recent[|recent| - HISTORY_LIMIT..] else recent
  }

  lemma TrimmedTracks(chain: Chain, start: nat, next: nat, kept: seq<Entry>, added: seq<Entry>, floor: int)
    requires forall e :: e in added ==> Records(chain, start, next, e)
    requires forall n :: start <= n < next <= |chain| && chain[n].logs != [] ==> HasEntry(chain, start, next, added, n)
    ensures |Trimmed(kept + added, floor)| < HISTORY_LIMIT
            ==> Tracks(chain, start, next, floor, Trimmed(kept + added, floor))
  {
    if |Trimmed(kept + added, floor)| < HISTORY_LIMIT {
      forall n | start <= n < next <= |chain| && n >= floor
          && chain[n].logs != [] ensures HasEntry(chain, start, next, Trimmed(kept + added, floor), n) {
        var e :| e in added && e.number == n && Records(chain, start, next, e);
        LatestStays(kept, added, e);
      }
    }
  }

  method GroupReply(reply: seq<Occurrence>) returns (groups: seq<Entry>)
    ensures Grouped(groups, reply)
  {
    groups := [];
    for i := 0 to |reply|
      invariant Grouped(groups, reply[..i])
    {
      GroupOneMore(groups, reply[..i], reply[i]);
      groups := AddToGroups(groups, reply[i]);
      assert reply[..i] + [reply[i]] == reply[..i + 1];
    }
    assert reply[..|reply|] == reply;
  }

  method CheckHistory(history: seq<Entry>, chain: Chain, safe: int) returns (reorged: seq<string>, first: Option<nat>)
    requires safe < |chain|
    ensures first == Lowest(history, chain, safe)
    ensures forall id :: id in reorged <==> exists e :: e in history && Diverges(chain, safe, e) && id in e.ids
  {
    reorged, first := [], None;
    for i := 0 to |history|
      invariant first == Lowest(history[..i], chain, safe)
      invariant forall id :: id in reorged <==> exists e :: e in history[..i] && Diverges(chain, safe, e) && id in e.ids
    {
      var entry := history[i];
      assert history[..i + 1] == history[..i] + [entry];
      if entry.number <= safe && chain[entry.number].hash != entry.hash {
        first := if first.Some? && first.value <= entry.number then first else Some(entry.number);
        reorged := reorged + entry.ids;
      }
    }
    assert history[..|history|] == history;
  }

  ghost predicate Scanned(chain: Chain, start: nat, next: nat, events: seq<Occurrence>, added: seq<Entry>)
    requires start < next ==> next <= |chain|
  {
    && multiset(events) == multiset(ChainLogs(chain, start, next))
    && (forall e :: e in added ==> Records(chain, start, next, e))
    && (forall n :: start <= n < next <= |chain| && chain[n].logs != [] ==> HasEntry(chain, start, next, added, n))
  }

  function Span(o: Options, ranges: nat): nat {
    ranges * o.maxBlockRange
  }

  lemma SpanGrows(o: Options, ranges: nat)
    ensures Span(o, 0) == 0 && Span(o, ranges + 1) == Span(o, ranges) + o.maxBlockRange
    ensures ranges <= RANGES_PER_POLL ==> Span(o, ranges) <= RANGES_PER_POLL * o.maxBlockRange
    ensures Span(o, RANGES_PER_POLL) == RANGES_PER_POLL * o.maxBlockRange
  {
  }

  method ScanRange(o: Options, chain: Chain, ghost start: nat, mid: nat, safe: nat,
      getLogs: (nat, nat) -> seq<Occurrence>,
                   events: seq<Occurrence>, added: seq<Entry>)
      returns (next: nat, allEvents: seq<Occurrence>, allAdded: seq<Entry>)
    requires Valid(o) && start <= mid <= safe < |chain| && Honest(getLogs, chain)
             && Scanned(chain, start, mid, events, added)
    ensures next == if mid + o.maxBlockRange > safe then safe + 1 else mid + o.maxBlockRange
    ensures Scanned(chain, start, next, allEvents, allAdded)
  {
    hide Scanned, Honest, Grouped;
    var toBlock := if mid + o.maxBlockRange - 1 < safe then mid + o.maxBlockRange - 1 else safe;
    var logs := getLogs(mid, toBlock);
    var groups := GroupReply(logs);
    ScanOneMore(chain, start, mid, toBlock + 1, events, added, logs, groups, getLogs);
    return toBlock + 1, events + logs, added + groups;
  }

  // At most five ranges a poll, never past the safe head.
  method Scan(o: Options, chain: Chain, start: nat, safe: nat, getLogs: (nat, nat) -> seq<Occurrence>)
      returns (nextBlock: nat, events: seq<Occurrence>, added: seq<Entry>)
    requires Valid(o) && safe < |chain| && Honest(getLogs, chain)
    ensures nextBlock == EndBlock(o, start, safe) && Scanned(chain, start, nextBlock, events, added)
  {
    nextBlock, events, added := start, [], [];
    var ranges := 0;
    SpanGrows(o, 0);
    assert Scanned(chain, start, start, events, added);
    hide Scanned, Honest, Span, Grouped, EndBlock;
    while nextBlock <= safe && ranges < RANGES_PER_POLL
      decreases RANGES_PER_POLL - ranges
      invariant 0 <= ranges <= RANGES_PER_POLL && start <= nextBlock
      invariant if start > safe then nextBlock == start
                else if start + Span(o, ranges) > safe then nextBlock == safe + 1
                    else nextBlock == start + Span(o, ranges)
      invariant Scanned(chain, start, nextBlock, events, added)
    {
      SpanGrows(o, ranges);
      nextBlock, events, added := ScanRange(o, chain, start, nextBlock, safe, getLogs, events, added);
      ranges := ranges + 1;
    }
    EndReached(o, start, safe, ranges, nextBlock);
  }

  lemma EndReached(o: Options, start: nat, safe: nat, ranges: nat, next: nat)
    requires ranges <= RANGES_PER_POLL && (next > safe || ranges == RANGES_PER_POLL)
    requires if start > safe then next == start else if start + Span(o, ranges) > safe then next == safe + 1
             else next == start + Span(o, ranges)
    ensures next == EndBlock(o, start, safe)
  {
    SpanGrows(o, ranges);
  }

  lemma ScanSettles(o: Options, chain: Chain, cursor: Cursor, start: nat, next: nat, kept: seq<Entry>,
      events: seq<Occurrence>, added: seq<Entry>)
    requires Valid(o) && 0 <= SafeHead(o, chain) && WellFormed(chain) && (start < next ==> next <= |chain|)
    requires Scanned(chain, start, next, events, added)
    requires forall e :: e in kept <==> KeptEntry(cursor, chain, SafeHead(o, chain), e)
    ensures InOrder(events) == ChainLogs(chain, start, next)
    ensures HistoryAfter(o, chain, cursor, start,
            Cursor(next, Trimmed(kept + added, SafeHead(o, chain) - o.maxReorgDepth)))
  {
    hide Records, Tracks, KeptEntry, InOrder, ChainLogs, Distinct, Covers;
    TrimmedCovers(kept + added, SafeHead(o, chain) - o.maxReorgDepth);
    TrimmedTracks(chain, start, next, kept, added, SafeHead(o, chain) - o.maxReorgDepth);
    ChainLogsAscend(chain, start, next);
    InOrderSorts(events);
    SortedIsUnique(InOrder(events), ChainLogs(chain, start, next));
    hide Trimmed;
  }

  method Poll(o: Options, chain: Chain, now: int, saved: Saved,
      getLogs: (nat, nat) -> seq<Occurrence>) returns (r: Result<Batch>)
    requires Valid(o) && chain != [] && WellFormed(chain) && Honest(getLogs, chain)
    ensures r.Failure? <==> saved.Empty? || (SafeHead(o, chain) >= 0 && StaleHead(o, chain[SafeHead(o, chain)], now))
    ensures r.Success? ==> Polls(o, chain, CursorOf(o, saved), r.value)
  {
    hide StaleHead, Honest, Lowest, Scanned, InOrder, Trimmed, ChainLogs, HistoryAfter, Diverges;
    if saved.Empty? {
      return Failure("invalid-cursor");
    }
    var cursor := CursorOf(o, saved);
    var safe := |chain| - 1 - o.confirmations;
    if safe < 0 {
      return Success(Batch([], [], cursor));
    }
    if StaleHead(o, chain[safe], now) {
      return Failure("event source head is stale");
    }
    var start, kept := cursor.nextBlock, cursor.history;
    var reorged, first := CheckHistory(cursor.history, chain, safe);
    if first.Some? {
      start := if start < first.value then start else first.value;
      kept := Below(cursor.history, first.value);
    }
    var nextBlock, events, added := Scan(o, chain, start, safe, getLogs);
    ScanSettles(o, chain, cursor, start, nextBlock, kept, events, added);
    return Success(Batch(InOrder(events), reorged, Cursor(nextBlock, Trimmed(kept + added, safe - o.maxReorgDepth))));
  }

  lemma ScanOneMore(chain: Chain, start: nat, mid: nat, next: nat, events: seq<Occurrence>, added: seq<Entry>,
                    logs: seq<Occurrence>, groups: seq<Entry>, getLogs: (nat, nat) -> seq<Occurrence>)
    requires start <= mid < next <= |chain| && Honest(getLogs, chain) && logs == getLogs(mid, next - 1)
    requires Scanned(chain, start, mid, events, added) && Grouped(groups, logs)
    ensures Scanned(chain, start, next, events + logs, added + groups)
  {
    ChainLogsSplit(chain, start, mid, next);
    GroupsRecord(chain, mid, next, logs, groups);
    EntriesJoin(chain, start, mid, next, added, groups);
  }

  lemma EntriesJoin(chain: Chain, start: nat, mid: nat, next: nat, added: seq<Entry>, groups: seq<Entry>)
    requires start <= mid <= next <= |chain|
    requires forall e :: e in added ==> Records(chain, start, mid, e)
    requires forall n :: start <= n < mid <= |chain| && chain[n].logs != [] ==> HasEntry(chain, start, mid, added, n)
    requires forall e :: e in groups ==> Records(chain, mid, next, e)
    requires forall n :: mid <= n < next && chain[n].logs != [] ==> HasEntry(chain, mid, next, groups, n)
    ensures forall e :: e in added + groups ==> Records(chain, start, next, e)
    ensures forall n :: start <= n < next && chain[n].logs != [] ==> HasEntry(chain, start, next, added + groups, n)
  {
    forall n | start <= n < next && chain[n].logs != [] ensures HasEntry(chain, start, next, added + groups, n) {
      if n < mid {
        var e :| e in added && e.number == n && Records(chain, start, mid, e);
        assert e in added + groups && Records(chain, start, next, e);
      } else {
        var e :| e in groups && e.number == n && Records(chain, mid, next, e);
        assert e in added + groups && Records(chain, start, next, e);
      }
    }
  }

  // ---- over one poll -----------------------------------------------------------------------

  // After a poll every remembered block at or below the safe head carries its current hash,
  // nothing above the safe head was emitted, and the scan went back to every changed block.
  lemma PollAgreesWithChain(o: Options, chain: Chain, cursor: Cursor, batch: Batch)
    requires Valid(o) && chain != [] && Polls(o, chain, cursor, batch) && SafeHead(o, chain) >= 0
    ensures forall e :: e in batch.cursor.history && e.number <= SafeHead(o, chain)
                        ==> e.number < |chain| && chain[e.number].hash == e.hash
    ensures forall e :: e in batch.events ==> e.number <= SafeHead(o, chain)
                                              && OnChain(chain, StartBlock(cursor, chain, SafeHead(o, chain)),
                                                 batch.cursor.nextBlock, e)
    ensures forall e :: e in cursor.history && Diverges(chain, SafeHead(o, chain), e)
                        ==> StartBlock(cursor, chain, SafeHead(o, chain)) <= e.number
  {
    var safe := SafeHead(o, chain);
    var start := StartBlock(cursor, chain, safe);
    forall e | e in batch.events ensures OnChain(chain, start, batch.cursor.nextBlock, e) {
      ChainLogsAreOnChain(chain, start, batch.cursor.nextBlock, e);
    }
    forall e | e in batch.cursor.history && e.number <= safe ensures chain[e.number].hash == e.hash {
      assert KeptEntry(cursor, chain, safe, e) ==> !Diverges(chain, safe, e);
    }
  }

  // ---- over many polls of chains that may reorganise ------------------------------------------

  // What becomes of a tracked identity that is still within reach: it is reported, or it stays
  // tracked, or it lies at or above a changed block without showing a change itself.
  lemma EntryFate(o: Options, chain: Chain, cursor: Cursor, batch: Batch, e: Entry, id: string)
    requires Valid(o) && chain != [] && Polls(o, chain, cursor, batch) && SafeHead(o, chain) >= 0
    requires e in cursor.history && id in e.ids && e.number >= SafeHead(o, chain) - o.maxReorgDepth
             && |batch.cursor.history| < HISTORY_LIMIT
    ensures var safe := SafeHead(o, chain);
            || id in batch.reorged
            || Covers(batch.cursor.history, e)
            || ((e.number > safe || chain[e.number].hash == e.hash)
                && exists d :: d in cursor.history && Diverges(chain, safe, d) && d.number <= e.number)
  {
    hide ChainLogs;
    var safe := SafeHead(o, chain);
    if Diverges(chain, safe, e) {
      assert Reorged(cursor, chain, safe, id);
    } else if Lowest(cursor.history, chain, safe).None? || e.number < Lowest(cursor.history, chain, safe).value {
      assert KeptEntry(cursor, chain, safe, e);
    }
  }

  // Each poll takes up the cursor the previous one left; the chains are any.
  function CursorAt(first: Cursor, batches: seq<Batch>, i: nat): Cursor
    requires i <= |batches|
  {
    if i == 0 then first else batches[i - 1].cursor
  }

  ghost predicate PollsInTurn(o: Options, first: Cursor, chains: seq<Chain>, batches: seq<Batch>)
    requires Valid(o) && |chains| == |batches|
  {
    forall i {:trigger batches[i]} :: 0 <= i < |batches|
                                      ==> chains[i] != [] && Polls(o, chains[i], CursorAt(first, batches, i),
                                          batches[i])
  }

  // A block hash commits to the block and to everything below it.
  ghost predicate Linked(a: Chain, b: Chain) {
    forall n {:trigger a[n]} {:trigger b[n]} :: 0 <= n < |a| && n < |b| && a[n].hash == b[n].hash
                                                ==> a[..n + 1] == b[..n + 1]
  }

  // The block of an occurrence is in reach of a poll: at or below its safe head, no deeper than a
  // reorg may reach, and the history has not hit its limit.
  predicate InReach(o: Options, chain: Chain, batch: Batch, number: nat) {
    && SafeHead(o, chain) - o.maxReorgDepth <= number <= SafeHead(o, chain) && |batch.cursor.history| < HISTORY_LIMIT
  }

  predicate Agrees(o: Options, chain: Chain, e: Occurrence)
    requires Valid(o)
  {
    e.number <= SafeHead(o, chain) && chain[e.number].hash == e.hash
  }

  ghost predicate TracksEvent(cursor: Cursor, e: Occurrence) {
    exists x :: x in cursor.history && x.number == e.number && x.hash == e.hash && e.id in x.ids
  }

  lemma EmittedIsTracked(o: Options, chain: Chain, cursor: Cursor, batch: Batch, e: Occurrence)
    requires Valid(o) && chain != [] && Polls(o, chain, cursor, batch) && e in batch.events
             && InReach(o, chain, batch, e.number)
    ensures TracksEvent(batch.cursor, e) && Agrees(o, chain, e) && HasLog(chain[e.number], e.id)
  {
    var safe := SafeHead(o, chain);
    var start, next := StartBlock(cursor, chain, safe), batch.cursor.nextBlock;
    ChainLogsAreOnChain(chain, start, next, e);
    hide ChainLogs;
    assert HasEntry(chain, start, next, batch.cursor.history, e.number);
    var x :| x in batch.cursor.history && x.number == e.number && Records(chain, start, next, x);
    var l := Log(e.id, e.index);
    assert l in chain[e.number].logs && l.id == e.id;
  }

  // Nothing at or below a block that both chains share diverges.
  lemma SharedPrefixAgrees(o: Options, before: Chain, chain: Chain, cursor: Cursor, e: Occurrence)
    requires Valid(o) && Linked(before, chain) && Agrees(o, before, e) && Agrees(o, chain, e)
    requires forall x :: x in cursor.history && x.number <= SafeHead(o, before) ==> before[x.number].hash == x.hash
    ensures forall x :: x in cursor.history && x.number <= e.number ==> !Diverges(chain, SafeHead(o, chain), x)
    ensures before[e.number] == chain[e.number]
  {
    assert before[..e.number + 1] == chain[..e.number + 1];
    assert before[..e.number + 1][e.number] == before[e.number] && chain[..e.number + 1][e.number] == chain[e.number];
    forall x | x in cursor.history && x.number <= e.number ensures chain[x.number].hash == x.hash {
      assert before[..e.number + 1][x.number] == before[x.number] && chain[..e.number + 1][x.number] == chain[x.number];
    }
  }

  lemma StaysTracked(o: Options, before: Chain, chain: Chain, cursor: Cursor, batch: Batch, e: Occurrence)
    requires Valid(o) && chain != [] && Polls(o, chain, cursor, batch) && InReach(o, chain, batch, e.number)
             && Linked(before, chain)
    requires Agrees(o, before, e) && Agrees(o, chain, e) && HasLog(before[e.number], e.id) && TracksEvent(cursor, e)
             && Distinct(cursor.history)
    requires forall x :: x in cursor.history && x.number <= SafeHead(o, before) ==> before[x.number].hash == x.hash
    ensures TracksEvent(batch.cursor, e) && HasLog(chain[e.number], e.id)
  {
    hide ChainLogs, Linked;
    SharedPrefixAgrees(o, before, chain, cursor, e);
    var safe := SafeHead(o, chain);
    var x :| x in cursor.history && x.number == e.number && x.hash == e.hash && e.id in x.ids;
    assert KeptEntry(cursor, chain, safe, x);
    assert Covers(batch.cursor.history, x);
    var y :| y in batch.cursor.history && SameKey(y, x);
    if KeptEntry(cursor, chain, safe, y) {
      var i :| 0 <= i < |cursor.history| && cursor.history[i] == x;
      var j :| 0 <= j < |cursor.history| && cursor.history[j] == y;
      assert i == j;
    } else {
      assert Records(chain, StartBlock(cursor, chain, safe), batch.cursor.nextBlock, y);
    }
  }

  // From poll i to poll j the block of the event stays in reach and is the same on every chain.
  ghost predicate InSight(o: Options, chains: seq<Chain>, batches: seq<Batch>, i: nat, j: nat, e: Occurrence)
    requires Valid(o) && |chains| == |batches|
  {
    forall m {:trigger batches[m]} :: i <= m < j <= |batches|
                                      ==> InReach(o, chains[m], batches[m], e.number)
                                          && chains[m][e.number].hash == e.hash
  }

  ghost predicate LinkedRun(chains: seq<Chain>, i: nat, j: nat) {
    forall m {:trigger Linked(chains[m - 1], chains[m])} :: i < m < j <= |chains| ==> Linked(chains[m - 1], chains[m])
  }

  lemma SightAt(o: Options, first: Cursor, chains: seq<Chain>, batches: seq<Batch>, i: nat, m: nat, j: nat,
      e: Occurrence)
    requires Valid(o) && |chains| == |batches| && PollsInTurn(o, first, chains, batches) && i <= m < j <= |batches|
             && InSight(o, chains, batches, i, j, e)
    ensures chains[m] != [] && Polls(o, chains[m], CursorAt(first, batches, m), batches[m])
    ensures InReach(o, chains[m], batches[m], e.number) && chains[m][e.number].hash == e.hash
  {
    hide Polls, InReach;
    assert batches[m] == batches[m];
  }

  lemma {:induction false} TrackedUntil(o: Options, first: Cursor, chains: seq<Chain>, batches: seq<Batch>, i: nat,
      m: nat, j: nat, e: Occurrence)
    requires Valid(o) && |chains| == |batches| && PollsInTurn(o, first, chains, batches) && i <= m < j <= |batches|
             && e in batches[i].events
    requires InSight(o, chains, batches, i, j, e) && LinkedRun(chains, i, j)
    ensures TracksEvent(batches[m].cursor, e) && Agrees(o, chains[m], e) && HasLog(chains[m][e.number], e.id)
    decreases m
  {
    hide Polls, Linked, Distinct, HasLog, PollsInTurn, InSight, TracksEvent;
    SightAt(o, first, chains, batches, i, m, j, e);
    if i == m {
      EmittedIsTracked(o, chains[i], CursorAt(first, batches, i), batches[i], e);
    } else {
      SightAt(o, first, chains, batches, i, m - 1, j, e);
      TrackedUntil(o, first, chains, batches, i, m - 1, j, e);
      PollAgreesWithChain(o, chains[m - 1], CursorAt(first, batches, m - 1), batches[m - 1]);
      PollIsDistinct(o, chains[m - 1], CursorAt(first, batches, m - 1), batches[m - 1]);
      assert Linked(chains[m - 1], chains[m]);
      hide LinkedRun;
      StaysTracked(o, chains[m - 1], chains[m], batches[m - 1].cursor, batches[m], e);
    }
  }

  lemma PollIsDistinct(o: Options, chain: Chain, cursor: Cursor, batch: Batch)
    requires Valid(o) && chain != [] && Polls(o, chain, cursor, batch) && SafeHead(o, chain) >= 0
    ensures Distinct(batch.cursor.history)
  {
  }

  lemma TrackedIsReported(o: Options, chain: Chain, cursor: Cursor, batch: Batch, e: Occurrence)
    requires Valid(o) && chain != [] && Polls(o, chain, cursor, batch) && SafeHead(o, chain) >= 0
             && TracksEvent(cursor, e)
    requires e.number <= SafeHead(o, chain) && chain[e.number].hash != e.hash
    ensures e.id in batch.reorged
  {
    hide ChainLogs, HistoryAfter;
    var x :| x in cursor.history && x.number == e.number && x.hash == e.hash && e.id in x.ids;
    assert Diverges(chain, SafeHead(o, chain), x);
    assert Reorged(cursor, chain, SafeHead(o, chain), e.id);
  }

  lemma PollAt(o: Options, first: Cursor, chains: seq<Chain>, batches: seq<Batch>, j: nat)
    requires Valid(o) && |chains| == |batches| && PollsInTurn(o, first, chains, batches) && j < |batches|
    ensures chains[j] != [] && Polls(o, chains[j], CursorAt(first, batches, j), batches[j])
  {
    hide Polls;
    assert batches[j] == batches[j];
  }

  lemma SafeIsPositive(o: Options, chain: Chain, n: nat)
    requires Valid(o) && n <= SafeHead(o, chain)
    ensures 0 <= SafeHead(o, chain) < |chain|
  {
  }

  // Detection: an event emitted from a block is reported by the first poll that finds another block
  // at that height, whatever the polls in between replayed, as long as the block stays in reach.
  lemma ReorgIsReported(o: Options, first: Cursor, chains: seq<Chain>, batches: seq<Batch>, i: nat, j: nat,
      e: Occurrence)
    requires Valid(o) && |chains| == |batches| && PollsInTurn(o, first, chains, batches) && i < j < |batches|
             && e in batches[i].events
    requires InSight(o, chains, batches, i, j, e) && LinkedRun(chains, i, j)
    requires e.number <= SafeHead(o, chains[j]) && chains[j][e.number].hash != e.hash
    ensures e.id in batches[j].reorged
  {
    hide Polls, InSight, LinkedRun, TracksEvent, Agrees, SafeHead;
    TrackedUntil(o, first, chains, batches, i, j - 1, j, e);
    PollAt(o, first, chains, batches, j);
    SafeIsPositive(o, chains[j], e.number);
    TrackedIsReported(o, chains[j], CursorAt(first, batches, j), batches[j], e);
  }

  // ---- over many polls of a chain that only extends ------------------------------------------

  function CursorBefore(o: Options, batches: seq<Batch>): Cursor {
    if batches == [] then Cursor(o.fromBlock, []) else batches[|batches| - 1].cursor
  }

  // Each poll takes up the cursor the previous one left.
  ghost predicate Feed(o: Options, chains: seq<Chain>, batches: seq<Batch>)
    requires Valid(o)
    decreases |batches|
  {
    && |chains| == |batches|
    && (batches != [] ==>
          var n := |batches| - 1;
          && chains[n] != [] && (n > 0 ==> chains[n - 1] <= chains[n])
          && Polls(o, chains[n], CursorBefore(o, batches[..n]), batches[n]) && Feed(o, chains[..n], batches[..n]))
  }

  function AllEvents(batches: seq<Batch>): seq<Occurrence>
    decreases |batches|
  {
    if batches == [] then [] else AllEvents(batches[..|batches| - 1]) + batches[|batches| - 1].events
  }

  ghost predicate Consistent(o: Options, chain: Chain, cursor: Cursor) {
    && o.fromBlock <= cursor.nextBlock && (cursor.nextBlock <= o.fromBlock
       || cursor.nextBlock <= SafeHead(o, chain) + 1)
    && forall e :: e in cursor.history ==> e.number < |chain| && chain[e.number].hash == e.hash
  }

  lemma NoMembers(s: seq<string>)
    ensures s == [] || exists id :: id in s
  {
    if s != [] {
      assert s[0] in s;
    }
  }

  lemma PollContinues(o: Options, before: Chain, chain: Chain, cursor: Cursor, batch: Batch)
    requires Valid(o) && chain != [] && before <= chain && Consistent(o, before, cursor)
             && Polls(o, chain, cursor, batch)
    ensures Consistent(o, chain, batch.cursor) && cursor.nextBlock <= batch.cursor.nextBlock && batch.reorged == []
    ensures cursor.nextBlock < batch.cursor.nextBlock ==> batch.cursor.nextBlock <= |chain|
    ensures batch.events == ChainLogs(chain, cursor.nextBlock, batch.cursor.nextBlock)
  {
    var safe := SafeHead(o, chain);
    if safe >= 0 {
      forall e | e in cursor.history ensures !Diverges(chain, safe, e) {
      }
      assert StartBlock(cursor, chain, safe) == cursor.nextBlock;
      assert forall id :: id !in batch.reorged;
      NoMembers(batch.reorged);
    }
  }

  // Feeding each poll's cursor to the next emits every log of [fromBlock, nextBlock) exactly
  // once, in chain order, never past the safe head, and reports no reorg.
  lemma {:induction false} ExactlyOnceInOrder(o: Options, chains: seq<Chain>, batches: seq<Batch>)
    requires Valid(o) && Feed(o, chains, batches) && batches != []
    ensures var chain, next := chains[|chains| - 1], CursorBefore(o, batches).nextBlock;
            && (next == o.fromBlock || o.fromBlock < next <= |chain| - o.confirmations)
            && AllEvents(batches) == ChainLogs(chain, o.fromBlock, next)
            && Consistent(o, chain, CursorBefore(o, batches))
    ensures forall i :: 0 <= i < |batches| ==> batches[i].reorged == []
    decreases |batches|
  {
    hide Polls, ChainLogs;
    var n := |batches| - 1;
    var chain, cursor := chains[n], CursorBefore(o, batches[..n]);
    if n == 0 {
      StartsConsistent(o);
      PollContinues(o, [], chain, cursor, batches[n]);
      assert AllEvents(batches[..n]) == [];
    } else {
      ExactlyOnceInOrder(o, chains[..n], batches[..n]);
      PollContinues(o, chains[n - 1], chain, cursor, batches[n]);
      EventsAccumulate(o, chains[n - 1], chain, cursor.nextBlock, batches[n].cursor.nextBlock);
      forall i | 0 <= i < n ensures batches[i].reorged == [] {
        assert batches[..n][i] == batches[i];
      }
    }
  }

  lemma StartsConsistent(o: Options)
    ensures Consistent(o, [], Cursor(o.fromBlock, [])) && ChainLogs([], o.fromBlock, o.fromBlock) == []
  {
  }

  lemma EventsAccumulate(o: Options, before: Chain, chain: Chain, mid: nat, next: nat)
    requires before <= chain && o.fromBlock <= mid <= next && (o.fromBlock < mid ==> mid <= |before|)
             && (mid < next ==> next <= |chain|)
    ensures ChainLogs(chain, o.fromBlock, next) == ChainLogs(before, o.fromBlock, mid) + ChainLogs(chain, mid, next)
  {
    ChainLogsExtend(before, chain, o.fromBlock, mid);
    ChainLogsSplit(chain, o.fromBlock, mid, next);
  }
}
