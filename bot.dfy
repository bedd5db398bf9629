/**
 * The bot's entry point (main.ts): boot from the persisted state, settle the pending
 * transaction left by the previous run, and the handler that runs on every new block.
 *
 * The state main.ts holds is the object `loadState` hands back: behind the saving proxy
 * when the state file held an object or was missing, a plain object when the file could
 * not be read or parsed. Assigning a top-level field of it through the proxy saves the
 * whole object; assigning a field of the nested `pendingTxn` object does not.
 *
 * The chain is an oracle: `receiptStatus` is the status of the pending transaction's
 * receipt, `chain` the Ping events the contract emitted, `ok(i)` whether `callPong`
 * for the event at position `i` of the block range comes back.
 */
module Bot {
  import opened Wrappers
  import opened Json
  import opened Persistence
  import opened BotTypes
  import opened BlockHandler
  import opened Contract
  import opened PendingTable

  /** The default main.ts loads the bot state with: the chain head as the last processed block. */
  function BootDefault(currentBlock: int): (v: Value)
    ensures v.Obj? && Decode(v) == Some(DefaultState(currentBlock))
  {
    DecodeEncode(DefaultState(currentBlock));
    Encode(DefaultState(currentBlock))
  }

  /** The bot state a boot on `files` starts from, when the loaded value reads as one. */
  function Booted(files: map<string, Record>, currentBlock: int): Option<BotState> {
    Decode(Load(files, BOT_STATE_KEY, BootDefault(currentBlock)).value)
  }

  /** A first boot, with no state file, starts at the chain head with index 0, and saves its writes. */
  lemma FirstBoot(files: map<string, Record>, currentBlock: int)
    requires BOT_STATE_KEY !in files
    ensures Load(files, BOT_STATE_KEY, BootDefault(currentBlock)).proxied
    ensures Booted(files, currentBlock) == Some(BotState(currentBlock, 0, None))
  {
  }

  /**
   * A state file that cannot be read or parsed, or that holds a primitive, also boots at
   * the chain head, but on a plain object: none of the run's writes reaches the file.
   */
  lemma UnusableFileBoot(files: map<string, Record>, currentBlock: int)
    requires BOT_STATE_KEY in files && (files[BOT_STATE_KEY].Unreadable? || !files[BOT_STATE_KEY].value.Obj?)
    ensures !Load(files, BOT_STATE_KEY, BootDefault(currentBlock)).proxied
    ensures Booted(files, currentBlock) == Some(BotState(currentBlock, 0, None))
  {
  }

  /** A boot after the state object was saved resumes from the checkpoint it holds, whatever the chain head. */
  lemma SavedCheckpointResumes(files: map<string, Record>, v: Value, s: BotState, currentBlock: int)
    requires v.Obj? && Decode(v) == Some(s)
    ensures Load(files[BOT_STATE_KEY := Stored(v)], BOT_STATE_KEY, BootDefault(currentBlock)) == Loaded(v, true)
    ensures Booted(files[BOT_STATE_KEY := Stored(v)], currentBlock) == Some(s)
  {
    SaveThenLoad(files, BOT_STATE_KEY, v, BootDefault(currentBlock));
  }

  /** The boot waits for the pending transaction when there is one not yet marked Mined. */
  predicate AwaitsReceipt(s: BotState) {
    s.pendingTxn.Some? && s.pendingTxn.value.status != Mined
  }

  /** The state with its pending transaction marked Mined. */
  function MarkMined(s: BotState): (r: BotState)
    requires s.pendingTxn.Some?
    ensures r.pendingTxn.Some? && r.pendingTxn.value.status == Mined && !AwaitsReceipt(r)
    ensures r.lastProcessedBlock == s.lastProcessedBlock && r.lastProcessedEventIndex == s.lastProcessedEventIndex
    ensures r.pendingTxn.value.(status := s.pendingTxn.value.status) == s.pendingTxn.value
  {
    s.(pendingTxn := Some(s.pendingTxn.value.(status := Mined)))
  }

  /**
   * The files after a handler run: the bot state's file holds `saved` when the run saved
   * the state object and is untouched otherwise, and no file other than the nonce
   * ledger's changes. The ledger write each pong makes is left open here.
   */
  ghost predicate SavedOnly(before: map<string, Record>, after: map<string, Record>, saved: Option<Value>) {
    && (forall k :: k != NONCE_STATE_KEY && k != BOT_STATE_KEY ==> (k in after <==> k in before))
    && (forall k :: k in after && k != NONCE_STATE_KEY && k != BOT_STATE_KEY ==> k in before && after[k] == before[k])
    && match saved
       case None => (BOT_STATE_KEY in after <==> BOT_STATE_KEY in before)
                    && (BOT_STATE_KEY in before ==> after[BOT_STATE_KEY] == before[BOT_STATE_KEY])
       case Some(v) => BOT_STATE_KEY in after && after[BOT_STATE_KEY] == Stored(v)
  }

  /** Writing nothing, or only the bot state's file, is such a run. */
  lemma SavedOnlyExact(before: map<string, Record>, v: Value)
    ensures SavedOnly(before, before, None)
    ensures SavedOnly(before, before[BOT_STATE_KEY := Stored(v)], Some(v))
  {
  }

  /** A later save of the state object keeps a run of this shape, with the newer object saved. */
  lemma SavedOnlyThenSave(before: map<string, Record>, mid: map<string, Record>, saved: Option<Value>, v: Value)
    requires SavedOnly(before, mid, saved)
    ensures SavedOnly(before, mid[BOT_STATE_KEY := Stored(v)], Some(v))
  {
  }

  class Bot {
    const store: Store
    const contract: ContractInteraction
    /** `state`: the object main.ts loaded. */
    var state: Handle

    /** The held state is an object that reads as a bot state; through the proxy it saves under the bot state's key. */
    ghost predicate Valid()
      reads this, store, contract, if state.IsObject() then {state.obj} else {}
    {
      && contract.store == store && store.Valid() && contract.Valid()
      && state.IsObject() && Decode(Obj(state.obj.fields)).Some?
      && (state.Proxied? ==> state.key == BOT_STATE_KEY)
    }

    /** The bot state the held object reads as. */
    ghost function Current(): BotState
      requires Valid()
      reads this, store, contract, state.obj
    {
      Decode(Obj(state.obj.fields)).value
    }

    /**
     * The boot of main.ts: `loadState(BOT_STATE_KEY, {lastProcessedBlock: currentBlock,
     * lastProcessedEventIndex: 0})`. No file is written.
     */
    constructor (store: Store, contract: ContractInteraction, currentBlock: int)
      requires store.Valid() && contract.Valid() && contract.store == store
      modifies store`state
      ensures this.store == store && this.contract == contract && store.files == old(store.files)
      ensures state.IsObject() && fresh(state.obj)
      ensures Obj(state.obj.fields) == Load(store.files, BOT_STATE_KEY, BootDefault(currentBlock)).value
      ensures state.Proxied? == Load(store.files, BOT_STATE_KEY, BootDefault(currentBlock)).proxied
      ensures Valid() <==> Booted(store.files, currentBlock).Some?
      ensures Valid() ==> Current() == Booted(store.files, currentBlock).value
    {
      var loaded := store.LoadState(BOT_STATE_KEY, BootDefault(currentBlock));
      this.store := store;
      this.contract := contract;
      state := loaded;
    }

    /**
     * Settling the transaction the previous run left pending. When there is one not yet
     * marked Mined: a receipt with status 1 marks it Mined on the nested object, in
     * memory only; any other receipt makes the bot pong its Ping hash again, and a pong
     * that fails ends the boot before the block handler is registered.
     */
    method ResolvePending(receiptStatus: int, chainCount: int, respond: nat -> SendResult)
      returns (repong: Option<Run>, started: bool)
      requires Valid() && LedgerUsable(store.files, contract.address)
      modifies state.obj, contract, store
      ensures Valid() && state == old(state)
      ensures repong.Some? <==> AwaitsReceipt(old(Current())) && receiptStatus != 1
      ensures started <==> repong.None? || repong.value.outcome.Sent?
      ensures Current() == if AwaitsReceipt(old(Current())) && receiptStatus == 1 then MarkMined(old(Current())) else old(Current())
      ensures repong.None? ==> store.files == old(store.files) && contract.pending == old(contract.pending)
      ensures repong.Some? ==>
                var nonce := ReservedNonce(old(store.files), contract.address, chainCount);
                && repong.value == SendLoop(respond, contract.maxRetries, nonce, 0, None, 0)
                && store.files == FilesAfterReserve(old(store.files), contract.address, chainCount)
                && contract.pending == Remove(old(contract.pending), old(Current()).pendingTxn.value.hash)
    {
      repong, started := None, true;
      var fields := state.obj.fields;
      var s := Decode(Obj(fields)).value;
      if AwaitsReceipt(s) {
        if receiptStatus == 1 {
          DecodeMarkMined(fields);
          var inner := Get(fields, "pendingTxn").fields;
          // `state.pendingTxn` is the plain nested object: the proxy does not see this write
          state.obj.fields := fields["pendingTxn" := Obj(inner["status" := Str(StatusText(Mined))])];
        } else {
          var run := contract.CallPong(s.pendingTxn.value.hash, chainCount, respond);
          repong, started := Some(run), run.outcome.Sent?;
        }
      }
    }

    /**
     * The event loop of the new-block handler over `events`: from `lastProcessedEventIndex`
     * on, pong each event and assign the index past it; stop at the first pong that
     * throws. A negative index makes `events[i]` undefined, and reading its block number
     * throws before any pong.
     */
    method WalkEvents(events: seq<PingEvent>, ok: nat -> bool) returns (sent: seq<PingEvent>, completed: bool)
      requires Valid()
      modifies state.obj, store`files
      ensures Valid() && state == old(state)
      ensures var h := Walk(old(Current()), events, ok);
              && Current() == h.state && sent == h.sent && completed == h.completed
      ensures SavedOnly(old(store.files), store.files, if state.Proxied? && sent != [] then Some(Obj(state.obj.fields)) else None)
    {
      ghost var s := Current();
      var index := Get(state.obj.fields, "lastProcessedEventIndex").n;
      if index < 0 {
        SavedOnlyExact(store.files, Obj(state.obj.fields));
        return [], false;
      }
      var from: nat := index;
      var i: nat := from;
      sent := [];
      while i < |events| && ok(i)
        invariant from <= i && (from <= |events| ==> i <= |events|) && (from > |events| ==> i == from)
        invariant forall j :: from <= j < i ==> ok(j)
        invariant sent == if from <= |events| then events[from..i] else []
        invariant Decode(Obj(state.obj.fields)) == Some(s.(lastProcessedEventIndex := i))
        invariant state.Proxied? && i > from ==> store.files == old(store.files)[BOT_STATE_KEY := Stored(Obj(state.obj.fields))]
        invariant !state.Proxied? || i == from ==> store.files == old(store.files)
        decreases |events| - i
      {
        DecodeSetIndex(state.obj.fields, i + 1);
        store.SetField(state, "lastProcessedEventIndex", Num(i + 1));
        sent := sent + [events[i]];
        i := i + 1;
      }
      FirstFailureAt(from, |events|, ok, i);
      completed := i >= |events|;
      SavedOnlyExact(old(store.files), Obj(state.obj.fields));
    }

    /**
     * The handler of a new block `blockNumber`: query the Ping events of
     * `[lastProcessedBlock, blockNumber]`, walk them, and assign the block once the walk
     * is done. The index is left where the walk put it.
     */
    method OnNewBlock(blockNumber: int, chain: seq<PingEvent>, ok: nat -> bool)
      returns (sent: seq<PingEvent>, completed: bool)
      requires Valid()
      modifies state.obj, store`files
      ensures Valid() && state == old(state)
      ensures var h := HandleBlock(old(Current()), blockNumber, Query(chain, old(Current()).lastProcessedBlock, blockNumber), ok);
              && Current() == h.state && sent == h.sent && completed == h.completed
      ensures SavedOnly(old(store.files), store.files,
                        if state.Proxied? && (sent != [] || completed) then Some(Obj(state.obj.fields)) else None)
    {
      var events := Query(chain, Get(state.obj.fields, "lastProcessedBlock").n, blockNumber);
      sent, completed := WalkEvents(events, ok);
      if completed {
        ghost var mid := store.files;
        ghost var walked := state.obj.fields;
        DecodeSetBlock(state.obj.fields, blockNumber);
        store.SetField(state, "lastProcessedBlock", Num(blockNumber));
        if state.Proxied? {
          SavedOnlyThenSave(old(store.files), mid, if sent != [] then Some(Obj(walked)) else None, Obj(state.obj.fields));
        }
      }
    }

    /**
     * The handler with the index scoped to the block range: query
     * `[lastProcessedBlock + 1, blockNumber]`, walk it, and once the walk is done assign
     * the block and reset the index to 0.
     */
    method OnNewBlockScoped(blockNumber: int, chain: seq<PingEvent>, ok: nat -> bool)
      returns (sent: seq<PingEvent>, completed: bool)
      requires Valid()
      modifies state.obj, store`files
      ensures Valid() && state == old(state)
      ensures var h := ScopedRun(old(Current()), chain, BlockRun(blockNumber, ok));
              && Current() == h.state && sent == h.sent && completed == h.completed
      ensures SavedOnly(old(store.files), store.files,
                        if state.Proxied? && (sent != [] || completed) then Some(Obj(state.obj.fields)) else None)
    {
      var events := Query(chain, Get(state.obj.fields, "lastProcessedBlock").n + 1, blockNumber);
      sent, completed := WalkEvents(events, ok);
      if completed {
        ghost var mid := store.files;
        ghost var walked := state.obj.fields;
        DecodeSetBlock(state.obj.fields, blockNumber);
        store.SetField(state, "lastProcessedBlock", Num(blockNumber));
        DecodeSetIndex(state.obj.fields, 0);
        store.SetField(state, "lastProcessedEventIndex", Num(0));
        if state.Proxied? {
          SavedOnlyThenSave(old(store.files), mid, if sent != [] then Some(Obj(walked)) else None, Obj(state.obj.fields));
        }
      }
    }
  }
}
