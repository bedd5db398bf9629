/**
 * The event listener (listner.ts): at start-up, catch up with the Ping events emitted
 * since the last processed block, pong each of them, and mark the listener active;
 * `stopListening` marks it inactive again.
 *
 * `chain` holds the Ping events the contract emitted; `ok(i)` says whether `callPong`
 * for the `i`-th past event comes back. `currentBlock` is what `getBlockNumber` answers
 * and stands for `'latest'` as well.
 */
module Listener {
  import opened Wrappers
  import opened Json
  import opened Persistence
  import opened BotTypes

  /**
   * `ToPrimitive` as the relational operators apply it: a plain object turns into the
   * string `"[object Object]"`, a primitive stays what it is.
   */
  function ToPrimitive(v: Value): (r: Value)
    ensures !r.Obj?
    ensures !v.Obj? ==> r == v
  {
    if v.Obj? then Str("[object Object]") else v
  }

  /** `v < n` for a number `n`: false whenever `v` converts to NaN. */
  function LessThan(v: Value, n: int): (r: bool)
    ensures v.Num? ==> (r <==> v.n < n)
  {
    match PrimitiveToNumber(ToPrimitive(v))
    case None => false
    case Some(x) => x < n
  }

  /** A plain object is never below a number: it converts to NaN. */
  lemma ObjectNeverLess(fields: map<string, Value>, n: int)
    ensures !LessThan(Obj(fields), n)
  {
    assert !IsDigit(ToPrimitive(Obj(fields)).s[0]);
  }

  /**
   * `loadState(key, 0) || 0` is always an object: a missing or unusable file gives
   * `0 || {}`, a parsed object comes back behind the proxy, and a stored number makes
   * `new Proxy` throw, which ends in `0 || {}` too. So it is never below the chain head.
   */
  lemma LoadedBlockNeverBehind(files: map<string, Record>, key: string, currentBlock: int)
    ensures Load(files, key, Num(0)).value.Obj?
    ensures !LessThan(Load(files, key, Num(0)).value, currentBlock)
  {
    ObjectNeverLess(Load(files, key, Num(0)).value.fields, currentBlock);
  }

  /** The block number a stored record means: a stored number, or 0 (`|| 0`) for anything else. */
  function StoredBlock(files: map<string, Record>, key: string): (n: int)
    ensures key in files && files[key].Stored? && files[key].value.Num? ==> n == files[key].value.n
    ensures key !in files || files[key].Unreadable? ==> n == 0
  {
    if key in files && files[key].Stored? && files[key].value.Num? then files[key].value.n else 0
  }

  /**
   * With block 5 stored and the chain at block 10, the listener as written compares an
   * empty object with 10 and skips the catch-up, although blocks 6 to 10 were never
   * processed.
   */
  lemma CatchUpSkipped()
    ensures var files := map["last-block" := Stored(Num(5))];
            && StoredBlock(files, "last-block") == 5 < 10
            && Load(files, "last-block", Num(0)).value == Obj(map[])
            && !LessThan(Load(files, "last-block", Num(0)).value, 10)
  {
    LoadedBlockNeverBehind(map["last-block" := Stored(Num(5))], "last-block", 10);
  }

  /** The `hash` arguments of Ping events, in order. */
  function PingHashes(events: seq<PingEvent>): (r: seq<string>)
    ensures |r| == |events|
    ensures forall i :: 0 <= i < |events| ==> r[i] == events[i].hash
  {
    if events == [] then [] else PingHashes(events[..|events| - 1]) + [events[|events| - 1].hash]
  }

  /** The hashes whose pong threw, in order: `ok(i)` is the outcome for the `i`-th event. */
  function FailedHashes(events: seq<PingEvent>, ok: nat -> bool): (r: seq<string>)
    ensures |r| <= |events|
  {
    if events == [] then []
    else
      var k := |events| - 1;
      FailedHashes(events[..k], ok) + if ok(k) then [] else [events[k].hash]
  }

  /** A hash is among the failed ones exactly when the pong of an event carrying it threw. */
  lemma {:induction false} FailedHashesMembers(events: seq<PingEvent>, ok: nat -> bool)
    ensures forall h :: h in FailedHashes(events, ok) <==> exists i :: 0 <= i < |events| && !ok(i) && events[i].hash == h
  {
    if events != [] {
      var k := |events| - 1;
      FailedHashesMembers(events[..k], ok);
      forall h | h in FailedHashes(events, ok)
        ensures exists i :: 0 <= i < |events| && !ok(i) && events[i].hash == h
      {
        if h in FailedHashes(events[..k], ok) {
          var i :| 0 <= i < k && !ok(i) && events[..k][i].hash == h;
          assert events[i].hash == h;
        } else {
          assert !ok(k) && events[k].hash == h;
        }
      }
      forall h, i | 0 <= i < |events| && !ok(i) && events[i].hash == h
        ensures h in FailedHashes(events, ok)
      {
        if i < k {
          assert events[..k][i].hash == h;
        }
      }
    }
  }

  /** When every pong comes back, no hash fails. */
  lemma {:induction false} NoFailures(events: seq<PingEvent>, ok: nat -> bool)
    requires forall i :: 0 <= i < |events| ==> ok(i)
    ensures FailedHashes(events, ok) == []
  {
    if events != [] {
      NoFailures(events[..|events| - 1], ok);
    }
  }

  class EventListener {
    const store: Store
    /** `lastProcessedBlockKey`. */
    const blockKey: string
    /** Whether `eventListener` is set. */
    var listening: bool

    constructor (store: Store, blockKey: string)
      ensures this.store == store && this.blockKey == blockKey && !listening
    {
      this.store := store;
      this.blockKey := blockKey;
      listening := false;
    }

    /**
     * `processPastEvents`: hand the `hash` argument of every event to `handlePingEvent`
     * in order. A pong that throws is logged and swallowed, so every event is attempted.
     */
    method ProcessPastEvents(events: seq<PingEvent>, ok: nat -> bool) returns (attempted: seq<string>, failed: seq<string>)
      ensures attempted == PingHashes(events)
      ensures failed == FailedHashes(events, ok)
    {
      attempted, failed := [], [];
      for i := 0 to |events|
        invariant attempted == PingHashes(events[..i])
        invariant failed == FailedHashes(events[..i], ok)
      {
        assert events[..i + 1][..i] == events[..i];
        attempted := attempted + [events[i].hash];
        // `handlePingEvent`: a failing `callPong` is caught and logged
        if !ok(i) {
          failed := failed + [events[i].hash];
        }
      }
      assert events[..|events|] == events;
    }

    /**
     * `startListening` as written: `loadState(lastProcessedBlockKey, 0) || 0` is compared
     * with the chain head; since that value is an object the comparison is false, no past
     * event is processed, and the listener is marked active.
     */
    method StartListeningAsWritten(currentBlock: int)
      returns (attempted: seq<string>)
      requires store.Valid()
      modifies this`listening, store`state
      ensures store.Valid() && listening && store.files == old(store.files)
      ensures attempted == []
      ensures CachedByLoad(store.files, blockKey, Num(0)).None? ==> store.state == old(store.state)
      ensures CachedByLoad(store.files, blockKey, Num(0)).Some? ==>
                Snapshot(store.state) == CachedByLoad(store.files, blockKey, Num(0)).value && !store.state.Proxied?
    {
      var loaded := store.LoadState(blockKey, Num(0));
      var last := if loaded.IsTruthy() then Snapshot(loaded) else Num(0);
      LoadedBlockNeverBehind(store.files, blockKey, currentBlock);
      attempted := [];
      if LessThan(last, currentBlock) {
        // the catch-up from `lastProcessedBlock + 1` cannot be reached
        assert false;
      }
      listening := true;
    }

    /**
     * `startListening` as evidently intended: when the stored block is behind the chain
     * head, every Ping event of the blocks after it up to the head is processed, in chain
     * order; then the listener is marked active.
     */
    method StartListening(currentBlock: int, chain: seq<PingEvent>, ok: nat -> bool)
      returns (attempted: seq<string>, failed: seq<string>)
      modifies this`listening
      ensures listening
      ensures var last := StoredBlock(store.files, blockKey);
              && attempted == (if last < currentBlock then PingHashes(Query(chain, last + 1, currentBlock)) else [])
              && failed == (if last < currentBlock then FailedHashes(Query(chain, last + 1, currentBlock), ok) else [])
    {
      var last := StoredBlock(store.files, blockKey);
      attempted, failed := [], [];
      if last < currentBlock {
        attempted, failed := ProcessPastEvents(Query(chain, last + 1, currentBlock), ok);
      }
      listening := true;
    }

    /** `stopListening`: an active listener becomes inactive; an inactive one stays as it is. */
    method StopListening()
      modifies this`listening
      ensures !listening
    {
      if listening {
        listening := false;
      }
    }
  }

  /**
   * The catch-up as intended pongs exactly the Ping events of the blocks after the
   * stored one up to the chain head: every such event's hash is attempted, and no other.
   */
  lemma CatchUpCovers(files: map<string, Record>, key: string, currentBlock: int, chain: seq<PingEvent>)
    requires StoredBlock(files, key) < currentBlock
    ensures var events := Query(chain, StoredBlock(files, key) + 1, currentBlock);
            forall e :: e in chain && StoredBlock(files, key) < e.blockNumber <= currentBlock <==> e in events
  {
    QueryMembers(chain, StoredBlock(files, key) + 1, currentBlock);
  }
}
