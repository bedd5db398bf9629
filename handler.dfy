/**
 * The new-block handler of the bot as a function of the checkpoint: the events of the
 * block range are walked from `lastProcessedEventIndex`, the index advancing past each
 * event whose pong went out, and `lastProcessedBlock` is set once the walk completes.
 *
 * `ok(i)` says whether `callPong` for the event at position `i` of the range comes
 * back; when it throws, the handler stops there.
 *
 * Besides the handler as written, this module holds the handler with the index scoped
 * to the block range (queried from `lastProcessedBlock + 1`, index reset when the block
 * is done), for which every event of the chain is ponged exactly once.
 */
module BlockHandler {
  import opened Wrappers
  import opened BotTypes

  /**
   * How a handler run ends: the new checkpoint, the events whose pong went out, the
   * event whose pong threw (if one did), and whether the run reached the block update.
   */
  datatype Handled = Handled(state: BotState, sent: seq<PingEvent>, failed: Option<PingEvent>, completed: bool)

  /** The first position from `from` on, below `n`, whose pong throws; `n` (or `from`) when none does. */
  function FirstFailure(from: nat, n: nat, ok: nat -> bool): (r: nat)
    decreases n - from
    ensures from <= r && (from <= n ==> r <= n) && (n < from ==> r == from)
    ensures r < n ==> !ok(r)
    ensures forall i :: from <= i < r ==> ok(i)
  {
    if from >= n || !ok(from) then from else FirstFailure(from + 1, n, ok)
  }

  /** The position a walk from `from` stops at is the first failing one after a run of successes. */
  lemma {:induction false} FirstFailureAt(from: nat, n: nat, ok: nat -> bool, i: nat)
    requires from <= i && (forall j :: from <= j < i ==> ok(j))
    requires (i < n && !ok(i)) || i == (if from <= n then n else from)
    decreases i - from
    ensures FirstFailure(from, n, ok) == i
  {
    if from < i {
      FirstFailureAt(from + 1, n, ok, i);
    }
  }

  /**
   * The event loop of the handler: from `lastProcessedEventIndex` on, pong each event
   * and advance the index past it; stop at the first pong that throws. A negative index
   * makes `events[i]` undefined, and reading its block number throws before any pong.
   * The walk moves only the index, by one per event ponged; it completes exactly when
   * the index was usable and no pong threw, and a pong that throws is the one at the
   * index the walk stops at.
   */
  function Walk(s: BotState, events: seq<PingEvent>, ok: nat -> bool): (r: Handled)
    ensures r.state.lastProcessedBlock == s.lastProcessedBlock && r.state.pendingTxn == s.pendingTxn
    ensures r.state.lastProcessedEventIndex >= s.lastProcessedEventIndex
    ensures |r.sent| == r.state.lastProcessedEventIndex - s.lastProcessedEventIndex
    ensures r.completed <==> s.lastProcessedEventIndex >= 0 && r.failed.None?
    ensures r.failed.Some? ==>
              var stop := r.state.lastProcessedEventIndex;
              0 <= stop < |events| && r.failed.value == events[stop] && !ok(stop)
  {
    if s.lastProcessedEventIndex < 0 then Handled(s, [], None, false)
    else
      var from: nat := s.lastProcessedEventIndex;
      var stop := FirstFailure(from, |events|, ok);
      var walked := s.(lastProcessedEventIndex := stop);
      if stop < |events| then Handled(walked, events[from..stop], Some(events[stop]), false)
      else Handled(walked, if from <= |events| then events[from..] else [], None, true)
  }

  /**
   * A walk from an index inside the events ends at an index no lower and still inside
   * them, having ponged exactly the events in between; it completes exactly when it
   * reaches the end, and it leaves the block alone.
   */
  lemma WalkPrefix(s: BotState, events: seq<PingEvent>, ok: nat -> bool)
    requires 0 <= s.lastProcessedEventIndex <= |events|
    ensures var h := Walk(s, events, ok);
            && s.lastProcessedEventIndex <= h.state.lastProcessedEventIndex <= |events|
            && events[..s.lastProcessedEventIndex] + h.sent == events[..h.state.lastProcessedEventIndex]
            && (h.completed <==> h.state.lastProcessedEventIndex == |events|)
            && h.state.lastProcessedBlock == s.lastProcessedBlock && h.state.pendingTxn == s.pendingTxn
  {
    var h := Walk(s, events, ok);
    assert events[..s.lastProcessedEventIndex] + h.sent == events[..h.state.lastProcessedEventIndex];
  }

  /**
   * A walk completes exactly when the index is usable and every pong from the index to
   * the end of the events goes out: a pong that throws keeps the run from completing.
   */
  lemma WalkCompletes(s: BotState, events: seq<PingEvent>, ok: nat -> bool)
    ensures Walk(s, events, ok).completed <==>
              s.lastProcessedEventIndex >= 0 && forall i :: s.lastProcessedEventIndex <= i < |events| ==> ok(i)
  {
    if s.lastProcessedEventIndex >= 0 {
      var from: nat := s.lastProcessedEventIndex;
      var stop := FirstFailure(from, |events|, ok);
      if stop < |events| {
        assert !ok(stop) && from <= stop;
      }
    }
  }

  /** The walk ponged only events of the range it was given. */
  lemma WalkSentIn(s: BotState, events: seq<PingEvent>, ok: nat -> bool)
    ensures forall e :: e in Walk(s, events, ok).sent ==> e in events
  {
  }

  /**
   * The handler for block `blockNumber` as written: after a completed walk only the
   * block moves, to `blockNumber`; a run that stops early leaves it where it was.
   */
  function HandleBlock(s: BotState, blockNumber: int, events: seq<PingEvent>, ok: nat -> bool): (r: Handled)
    ensures r.state.lastProcessedBlock == if r.completed then blockNumber else s.lastProcessedBlock
    ensures r.state.lastProcessedEventIndex >= s.lastProcessedEventIndex && r.state.pendingTxn == s.pendingTxn
    ensures r.failed.Some? ==> !r.completed
  {
    var h := Walk(s, events, ok);
    if h.completed then h.(state := h.state.(lastProcessedBlock := blockNumber)) else h
  }

  /**
   * What one handler run does to the checkpoint: the index never goes down and the
   * pending transaction is untouched; the block becomes `blockNumber` exactly when the
   * run completes; the events ponged are those from the old index up to the new one.
   */
  lemma HandleBlockCheckpoint(s: BotState, blockNumber: int, events: seq<PingEvent>, ok: nat -> bool)
    ensures var h := HandleBlock(s, blockNumber, events, ok);
            && h.state.lastProcessedEventIndex >= s.lastProcessedEventIndex
            && h.state.pendingTxn == s.pendingTxn
            && h.state.lastProcessedBlock == (if h.completed then blockNumber else s.lastProcessedBlock)
            && (0 <= s.lastProcessedEventIndex <= |events| ==>
                  h.sent == events[s.lastProcessedEventIndex..h.state.lastProcessedEventIndex])
  {
  }

  /**
   * When every pong goes out, a run from a non-negative index completes, the index ends
   * at the larger of the old index and the number of events, and no event below the old
   * index is ponged again.
   */
  lemma HandleBlockAllSent(s: BotState, blockNumber: int, events: seq<PingEvent>, ok: nat -> bool)
    requires s.lastProcessedEventIndex >= 0 && forall i :: ok(i)
    ensures var h := HandleBlock(s, blockNumber, events, ok);
            var idx := s.lastProcessedEventIndex;
            && h.completed && h.failed.None?
            && h.state.lastProcessedBlock == blockNumber
            && h.state.lastProcessedEventIndex == (if idx >= |events| then idx else |events|)
            && h.sent == (if idx <= |events| then events[idx..] else [])
  {
    var n := |events|;
    var idx: nat := s.lastProcessedEventIndex;
    FirstFailureAt(idx, n, ok, if idx <= n then n else idx);
  }

  /**
   * When a pong throws, the block is not advanced and the index points at the event
   * whose pong threw, every event before it from the old index on having gone out.
   */
  lemma HandleBlockFailure(s: BotState, blockNumber: int, events: seq<PingEvent>, ok: nat -> bool)
    requires s.lastProcessedEventIndex >= 0
    ensures var h := HandleBlock(s, blockNumber, events, ok);
            var stop := h.state.lastProcessedEventIndex;
            !h.completed ==>
              && h.state.lastProcessedBlock == s.lastProcessedBlock
              && 0 <= stop < |events| && !ok(stop)
              && h.failed == Some(events[stop])
              && forall i :: s.lastProcessedEventIndex <= i < stop ==> ok(i)
    ensures var h := HandleBlock(s, blockNumber, events, ok);
            (exists i :: s.lastProcessedEventIndex <= i < |events| && !ok(i)) ==>
              !h.completed && h.state.lastProcessedBlock == s.lastProcessedBlock
  {
    WalkCompletes(s, events, ok);
  }

  /** One handler run per new block: the block number, and how each pong of that run ends. */
  datatype BlockRun = BlockRun(blockNumber: int, ok: nat -> bool)

  /**
   * The checkpoint after the handler has run for each block of `runs` in turn, each
   * querying `[lastProcessedBlock, blockNumber]`, and the events ponged over all runs.
   */
  function Replay(s: BotState, chain: seq<PingEvent>, runs: seq<BlockRun>): (r: (BotState, seq<PingEvent>))
    decreases |runs|
    ensures r.0.pendingTxn == s.pendingTxn
    ensures forall e :: e in r.1 ==> e in chain
  {
    if runs == [] then (s, [])
    else
      var run := runs[0];
      QueryMembers(chain, s.lastProcessedBlock, run.blockNumber);
      WalkSentIn(s, Query(chain, s.lastProcessedBlock, run.blockNumber), run.ok);
      var h := HandleBlock(s, run.blockNumber, Query(chain, s.lastProcessedBlock, run.blockNumber), run.ok);
      var rest := Replay(h.state, chain, runs[1..]);
      (rest.0, h.sent + rest.1)
  }

  /** `lastProcessedEventIndex` is never reset: over any sequence of handler runs it only grows. */
  lemma {:induction false} IndexNeverReset(s: BotState, chain: seq<PingEvent>, runs: seq<BlockRun>)
    decreases |runs|
    ensures Replay(s, chain, runs).0.lastProcessedEventIndex >= s.lastProcessedEventIndex
  {
    if runs != [] {
      var run := runs[0];
      HandleBlockCheckpoint(s, run.blockNumber, Query(chain, s.lastProcessedBlock, run.blockNumber), run.ok);
      var h := HandleBlock(s, run.blockNumber, Query(chain, s.lastProcessedBlock, run.blockNumber), run.ok);
      IndexNeverReset(h.state, chain, runs[1..]);
    }
  }

  /** Every pong goes out. */
  function AllSent(): nat -> bool {
    _ => true
  }

  /** The events of a range on a chain of three events. */
  lemma QueryThree(e1: PingEvent, e2: PingEvent, e3: PingEvent, from: int, to: int)
    ensures Query([e1, e2, e3], from, to)
         == (if from <= e1.blockNumber <= to then [e1] else []) + (if from <= e2.blockNumber <= to then [e2] else [])
            + (if from <= e3.blockNumber <= to then [e3] else [])
  {
    assert [e1, e2, e3] == [e1] + [e2, e3] && [e2, e3] == [e2] + [e3] && [e3] == [e3] + [];
    QueryCons(e1, [e2, e3], from, to);
    QueryCons(e2, [e3], from, to);
    QueryCons(e3, [], from, to);
  }

  /** The ranges the handler runs of `SkipsEvent` and `ScopedPongsAll` query on a chain of three events. */
  lemma ChainQueries(e1: PingEvent, e2: PingEvent, e3: PingEvent)
    requires e1.blockNumber == 11 && e2.blockNumber == 12 && e3.blockNumber == 13
    ensures Query([e1, e2, e3], 10, 12) == [e1, e2]
    ensures Query([e1, e2, e3], 12, 13) == [e2, e3]
    ensures Query([e1, e2, e3], 13, 14) == [e3]
    ensures Query([e1, e2, e3], 11, 14) == [e1, e2, e3]
  {
    QueryThree(e1, e2, e3, 10, 12);
    QueryThree(e1, e2, e3, 12, 13);
    QueryThree(e1, e2, e3, 13, 14);
    QueryThree(e1, e2, e3, 11, 14);
  }

  /**
   * With Ping events in blocks 11, 12 and 13 and a checkpoint at block 10, handler runs
   * for blocks 12, 13 and 14 in which every pong goes out never pong the event of block
   * 13: after block 12 the index is 2, and no later range holds more than 2 events.
   */
  lemma SkipsEvent()
    ensures var e1, e2, e3 := PingEvent("t1", 11, "h1"), PingEvent("t2", 12, "h2"), PingEvent("t3", 13, "h3");
            var r := Replay(BotState(10, 0, None), [e1, e2, e3],
                            [BlockRun(12, AllSent()), BlockRun(13, AllSent()), BlockRun(14, AllSent())]);
            && r.1 == [e1, e2]
            && e3 !in r.1
            && r.0.lastProcessedBlock == 14
  {
    var e1, e2, e3 := PingEvent("t1", 11, "h1"), PingEvent("t2", 12, "h2"), PingEvent("t3", 13, "h3");
    var chain := [e1, e2, e3];
    var ok := AllSent();
    var runs := [BlockRun(12, ok), BlockRun(13, ok), BlockRun(14, ok)];
    var s0, s1, s2, s3 := BotState(10, 0, None), BotState(12, 2, None), BotState(13, 2, None), BotState(14, 2, None);
    ChainQueries(e1, e2, e3);
    FirstFailureAt(0, 2, ok, 2);
    assert HandleBlock(s0, 12, [e1, e2], ok) == Handled(s1, [e1, e2], None, true);
    assert HandleBlock(s1, 13, [e2, e3], ok) == Handled(s2, [], None, true);
    assert HandleBlock(s2, 14, [e3], ok) == Handled(s3, [], None, true);
    assert runs[1..][1..][1..] == [];
    ReplayFirst(s2, chain, runs[1..][1..]);
    ReplayFirst(s1, chain, runs[1..]);
    ReplayFirst(s0, chain, runs);
  }

  /** The first run of a replay followed by the rest. */
  lemma ReplayFirst(s: BotState, chain: seq<PingEvent>, runs: seq<BlockRun>)
    requires runs != []
    ensures var h := HandleBlock(s, runs[0].blockNumber, Query(chain, s.lastProcessedBlock, runs[0].blockNumber), runs[0].ok);
            Replay(s, chain, runs) == (Replay(h.state, chain, runs[1..]).0, h.sent + Replay(h.state, chain, runs[1..]).1)
  {
  }

  // ---------------------------------------------------------------------------
  // The handler with the index scoped to the block range

  /**
   * The handler with the index scoped to the range `[lastProcessedBlock + 1, blockNumber]`:
   * the walk is the same; a completed walk moves the block and resets the index to 0.
   */
  function HandleBlockScoped(s: BotState, blockNumber: int, events: seq<PingEvent>, ok: nat -> bool): (r: Handled)
    ensures r.completed ==> r.state.lastProcessedBlock == blockNumber && r.state.lastProcessedEventIndex == 0
    ensures !r.completed ==>
              r.state.lastProcessedBlock == s.lastProcessedBlock && r.state.lastProcessedEventIndex >= s.lastProcessedEventIndex
    ensures r.state.pendingTxn == s.pendingTxn
  {
    var h := Walk(s, events, ok);
    if h.completed then h.(state := h.state.(lastProcessedBlock := blockNumber, lastProcessedEventIndex := 0)) else h
  }

  /** One run of the scoped handler, on the range `[lastProcessedBlock + 1, blockNumber]`. */
  function ScopedRun(s: BotState, chain: seq<PingEvent>, run: BlockRun): Handled {
    HandleBlockScoped(s, run.blockNumber, Query(chain, s.lastProcessedBlock + 1, run.blockNumber), run.ok)
  }

  /** A scoped run pongs only events of the chain in the blocks after the checkpoint's, up to the new one. */
  lemma ScopedRunIn(s: BotState, chain: seq<PingEvent>, run: BlockRun)
    ensures forall e :: e in ScopedRun(s, chain, run).sent ==> e in chain && s.lastProcessedBlock < e.blockNumber <= run.blockNumber
  {
    QueryMembers(chain, s.lastProcessedBlock + 1, run.blockNumber);
    WalkSentIn(s, Query(chain, s.lastProcessedBlock + 1, run.blockNumber), run.ok);
  }

  /** The runs of the scoped handler, each querying `[lastProcessedBlock + 1, blockNumber]`. */
  function ReplayScoped(s: BotState, chain: seq<PingEvent>, runs: seq<BlockRun>): (r: (BotState, seq<PingEvent>))
    decreases |runs|
    ensures r.0.pendingTxn == s.pendingTxn
  {
    if runs == [] then (s, [])
    else
      var h := ScopedRun(s, chain, runs[0]);
      var rest := ReplayScoped(h.state, chain, runs[1..]);
      (rest.0, h.sent + rest.1)
  }

  /**
   * The scoped checkpoint `s`, reached from `s0` with the chain head last seen at `head`,
   * accounts for the pongs `log`: every event of the blocks after `s0`'s up to `s`'s,
   * then the first `lastProcessedEventIndex` events of the blocks after `s`'s.
   */
  ghost predicate Accounts(s0: BotState, s: BotState, chain: seq<PingEvent>, head: int, log: seq<PingEvent>) {
    && s0.lastProcessedBlock <= s.lastProcessedBlock <= head
    && 0 <= s.lastProcessedEventIndex <= |Query(chain, s.lastProcessedBlock + 1, head)|
    && log == Query(chain, s0.lastProcessedBlock + 1, s.lastProcessedBlock)
              + Query(chain, s.lastProcessedBlock + 1, head)[..s.lastProcessedEventIndex]
  }

  /** One run of the scoped handler for a head no lower than the last one keeps the account. */
  lemma ScopedStep(s0: BotState, s: BotState, chain: seq<PingEvent>, head: int, log: seq<PingEvent>,
                   blockNumber: int, ok: nat -> bool)
    requires BlockSorted(chain) && Accounts(s0, s, chain, head, log) && head <= blockNumber
    ensures var h := HandleBlockScoped(s, blockNumber, Query(chain, s.lastProcessedBlock + 1, blockNumber), ok);
            Accounts(s0, h.state, chain, blockNumber, log + h.sent)
  {
    var events := Query(chain, s.lastProcessedBlock + 1, blockNumber);
    QueryPrefix(chain, s.lastProcessedBlock + 1, head, blockNumber);
    WalkPrefix(s, events, ok);
    var w := Walk(s, events, ok);
    var before := Query(chain, s0.lastProcessedBlock + 1, s.lastProcessedBlock);
    LogExtends(log, before, events, s.lastProcessedEventIndex, w.sent, w.state.lastProcessedEventIndex);
    if w.completed {
      ScopedStepCompletes(s0, s, chain, log + w.sent, blockNumber, events);
    }
  }

  /** A completed walk has ponged every event of the blocks after `s0`'s up to `blockNumber`. */
  lemma ScopedStepCompletes(s0: BotState, s: BotState, chain: seq<PingEvent>, log: seq<PingEvent>,
                            blockNumber: int, events: seq<PingEvent>)
    requires BlockSorted(chain) && s0.lastProcessedBlock <= s.lastProcessedBlock <= blockNumber
    requires events == Query(chain, s.lastProcessedBlock + 1, blockNumber)
    requires log == Query(chain, s0.lastProcessedBlock + 1, s.lastProcessedBlock) + events[..|events|]
    ensures log == Query(chain, s0.lastProcessedBlock + 1, blockNumber) + Query(chain, blockNumber + 1, blockNumber)[..0]
  {
    assert events[..|events|] == events;
    QuerySplit(chain, s0.lastProcessedBlock + 1, s.lastProcessedBlock, blockNumber);
    QueryEmptyRange(chain, blockNumber + 1, blockNumber);
  }

  /** Appending the events walked to a log that ends with the first `idx` events gives one ending with the first `stop`. */
  lemma LogExtends(log: seq<PingEvent>, before: seq<PingEvent>, events: seq<PingEvent>, idx: nat, sent: seq<PingEvent>, stop: nat)
    requires idx <= stop <= |events| && log == before + events[..idx] && events[..idx] + sent == events[..stop]
    ensures log + sent == before + events[..stop]
  {
  }

  /** The block numbers of the runs never go down, starting from `head`. */
  ghost predicate Ascending(head: int, runs: seq<BlockRun>)
    decreases |runs|
  {
    runs == [] || (head <= runs[0].blockNumber && Ascending(runs[0].blockNumber, runs[1..]))
  }

  lemma {:induction false} AscendingFrom(head: int, runs: seq<BlockRun>)
    requires forall i, j :: 0 <= i < j < |runs| ==> runs[i].blockNumber <= runs[j].blockNumber
    requires runs != [] ==> head <= runs[0].blockNumber
    decreases |runs|
    ensures Ascending(head, runs)
  {
    if runs != [] {
      AscendingFrom(runs[0].blockNumber, runs[1..]);
    }
  }

  function LastHead(head: int, runs: seq<BlockRun>): int {
    if runs == [] then head else runs[|runs| - 1].blockNumber
  }

  lemma AccountsAssoc(s0: BotState, s: BotState, chain: seq<PingEvent>, head: int, log: seq<PingEvent>, sent: seq<PingEvent>, rest: seq<PingEvent>)
    requires Accounts(s0, s, chain, head, log + sent + rest)
    ensures Accounts(s0, s, chain, head, log + (sent + rest))
  {
    assert log + sent + rest == log + (sent + rest);
  }

  /** The first scoped run of a replay followed by the rest. */
  lemma ReplayScopedFirst(s: BotState, chain: seq<PingEvent>, runs: seq<BlockRun>)
    requires runs != []
    ensures var h := ScopedRun(s, chain, runs[0]);
            ReplayScoped(s, chain, runs) == (ReplayScoped(h.state, chain, runs[1..]).0, h.sent + ReplayScoped(h.state, chain, runs[1..]).1)
  {
  }

  /** The account the runs keep, from any accounted checkpoint, over heads that never go down. */
  lemma {:induction false} ScopedReplayAccounts(s0: BotState, s: BotState, chain: seq<PingEvent>, head: int,
                                                log: seq<PingEvent>, runs: seq<BlockRun>)
    requires BlockSorted(chain) && Accounts(s0, s, chain, head, log)
    requires Ascending(head, runs)
    decreases |runs|
    ensures var r := ReplayScoped(s, chain, runs);
            Accounts(s0, r.0, chain, LastHead(head, runs), log + r.1)
  {
    if runs != [] {
      var run := runs[0];
      var h := ScopedRun(s, chain, run);
      ScopedStep(s0, s, chain, head, log, run.blockNumber, run.ok);
      assert Accounts(s0, h.state, chain, run.blockNumber, log + h.sent);
      var tail := runs[1..];
      assert LastHead(run.blockNumber, tail) == LastHead(head, runs);
      ScopedReplayAccounts(s0, h.state, chain, run.blockNumber, log + h.sent, tail);
      var rest := ReplayScoped(h.state, chain, tail);
      ReplayScopedFirst(s, chain, runs);
      AccountsAssoc(s0, rest.0, chain, LastHead(head, runs), log, h.sent, rest.1);
    }
  }

  /**
   * From a checkpoint with index 0, handler runs for block numbers that never go down
   * and start at or above the checkpoint pong, in chain order, every event of the
   * blocks after the first checkpoint's up to the last one's exactly once, followed by
   * the events of the block range still being worked on, up to its index: no event is
   * skipped and none is ponged twice.
   */
  lemma ScopedExactlyOnce(s0: BotState, chain: seq<PingEvent>, runs: seq<BlockRun>)
    requires BlockSorted(chain) && s0.lastProcessedEventIndex == 0
    requires forall i, j :: 0 <= i < j < |runs| ==> runs[i].blockNumber <= runs[j].blockNumber
    requires runs != [] ==> s0.lastProcessedBlock <= runs[0].blockNumber
    ensures var r := ReplayScoped(s0, chain, runs);
            var head := if runs == [] then s0.lastProcessedBlock else runs[|runs| - 1].blockNumber;
            && 0 <= r.0.lastProcessedEventIndex <= |Query(chain, r.0.lastProcessedBlock + 1, head)|
            && r.1 == Query(chain, s0.lastProcessedBlock + 1, r.0.lastProcessedBlock)
                      + Query(chain, r.0.lastProcessedBlock + 1, head)[..r.0.lastProcessedEventIndex]
            && (r.0.lastProcessedBlock == head ==> r.1 == Query(chain, s0.lastProcessedBlock + 1, head))
  {
    QueryEmptyRange(chain, s0.lastProcessedBlock + 1, s0.lastProcessedBlock);
    AscendingFrom(s0.lastProcessedBlock, runs);
    ScopedReplayAccounts(s0, s0, chain, s0.lastProcessedBlock, [], runs);
    var r := ReplayScoped(s0, chain, runs);
    var head := if runs == [] then s0.lastProcessedBlock else runs[|runs| - 1].blockNumber;
    if r.0.lastProcessedBlock == head {
      QueryEmptyRange(chain, head + 1, head);
    }
  }

  /** When every pong of every run goes out, the scoped checkpoint ends at the last block with index 0. */
  lemma {:induction false} ScopedAllSent(s: BotState, chain: seq<PingEvent>, runs: seq<BlockRun>)
    requires s.lastProcessedEventIndex >= 0
    requires forall k, i :: 0 <= k < |runs| ==> runs[k].ok(i)
    decreases |runs|
    ensures var r := ReplayScoped(s, chain, runs);
            runs != [] ==> r.0.lastProcessedBlock == runs[|runs| - 1].blockNumber && r.0.lastProcessedEventIndex == 0
  {
    if runs != [] {
      var run := runs[0];
      var events := Query(chain, s.lastProcessedBlock + 1, run.blockNumber);
      var idx: nat := s.lastProcessedEventIndex;
      FirstFailureAt(idx, |events|, run.ok, if idx <= |events| then |events| else idx);
      var h := HandleBlockScoped(s, run.blockNumber, events, run.ok);
      assert h.completed;
      ScopedAllSent(h.state, chain, runs[1..]);
    }
  }

  /**
   * When every pong of every run goes out, the scoped runs from a checkpoint with index 0
   * pong exactly the events of the blocks after the checkpoint's up to the last run's, in
   * chain order.
   */
  lemma ScopedAllDone(s0: BotState, chain: seq<PingEvent>, runs: seq<BlockRun>)
    requires BlockSorted(chain) && s0.lastProcessedEventIndex == 0
    requires forall i, j :: 0 <= i < j < |runs| ==> runs[i].blockNumber <= runs[j].blockNumber
    requires runs != [] && s0.lastProcessedBlock <= runs[0].blockNumber
    requires forall k, i :: 0 <= k < |runs| ==> runs[k].ok(i)
    ensures ReplayScoped(s0, chain, runs).1 == Query(chain, s0.lastProcessedBlock + 1, runs[|runs| - 1].blockNumber)
  {
    ScopedExactlyOnce(s0, chain, runs);
    ScopedAllSent(s0, chain, runs);
  }

  /** On the chain of `SkipsEvent`, the scoped handler pongs all three events. */
  lemma ScopedPongsAll()
    ensures var e1, e2, e3 := PingEvent("t1", 11, "h1"), PingEvent("t2", 12, "h2"), PingEvent("t3", 13, "h3");
            ReplayScoped(BotState(10, 0, None), [e1, e2, e3],
                         [BlockRun(12, AllSent()), BlockRun(13, AllSent()), BlockRun(14, AllSent())]).1
              == [e1, e2, e3]
  {
    var e1, e2, e3 := PingEvent("t1", 11, "h1"), PingEvent("t2", 12, "h2"), PingEvent("t3", 13, "h3");
    var chain := [e1, e2, e3];
    var runs := [BlockRun(12, AllSent()), BlockRun(13, AllSent()), BlockRun(14, AllSent())];
    assert BlockSorted(chain);
    ScopedAllDone(BotState(10, 0, None), chain, runs);
    ChainQueries(e1, e2, e3);
  }
}
