/**
 * The contract interaction module: the persisted per-address nonce ledger, the pong
 * submission with its bounded retry loop and exponential backoff, the in-memory
 * `pendingTransactions` dictionary, and the re-send queue.
 *
 * The chain is an oracle: `chainCount` is what `getTransactionCount` answers,
 * `respond(k)` is how attempt `k` of a submission ends (the transaction is mined, or
 * `contract.pong`/`tx.wait` throws), and `accepts` says whether a re-sent
 * transaction goes through.
 */
module Contract {
  import opened Wrappers
  import opened Json
  import opened Persistence
  import opened PendingTable

  const NONCE_STATE_KEY: string := "nonce-state"
  const UNPREDICTABLE_GAS_LIMIT: string := "UNPREDICTABLE_GAS_LIMIT"

  // ---------------------------------------------------------------------------
  // The nonce ledger

  /** The object `getNonce` works on: `loadState('nonce-state', {}) || {}`. */
  function LedgerFields(files: map<string, Record>): map<string, Value> {
    Load(files, NONCE_STATE_KEY, Obj(map[])).value.fields
  }

  /** An entry `nonces[address]++` can step: a number, or a falsy value that is reseeded first. */
  predicate EntryUsable(v: Value) {
    v.Num? || !Truthy(v)
  }

  ghost predicate LedgerUsable(files: map<string, Record>, address: string) {
    EntryUsable(Get(LedgerFields(files), address))
  }

  /**
   * The nonce `getNonce(address)` hands out: the ledger's entry for the address, or the
   * chain's transaction count when that entry is missing or falsy (a stored 0 included).
   */
  function ReservedNonce(files: map<string, Record>, address: string, chainCount: int): (n: int)
    requires LedgerUsable(files, address)
    ensures Get(LedgerFields(files), address) == Num(n) || n == chainCount
    ensures !Truthy(Get(LedgerFields(files), address)) ==> n == chainCount
    ensures Truthy(Get(LedgerFields(files), address)) ==> Get(LedgerFields(files), address) == Num(n)
  {
    var entry := Get(LedgerFields(files), address);
    if Truthy(entry) then entry.n else chainCount
  }

  /** The ledger `getNonce` saves: the same object with the address stepped past the nonce handed out. */
  function LedgerAfter(files: map<string, Record>, address: string, chainCount: int): (r: map<string, Value>)
    requires LedgerUsable(files, address)
    ensures Get(r, address) == Num(ReservedNonce(files, address, chainCount) + 1)
    ensures forall k :: k != address ==> Get(r, k) == Get(LedgerFields(files), k)
  {
    LedgerFields(files)[address := Num(ReservedNonce(files, address, chainCount) + 1)]
  }

  /** The files after `getNonce(address)`: only the ledger record is rewritten. */
  function FilesAfterReserve(files: map<string, Record>, address: string, chainCount: int): (r: map<string, Record>)
    requires LedgerUsable(files, address)
    ensures r.Keys == files.Keys + {NONCE_STATE_KEY}
    ensures forall k :: k in files && k != NONCE_STATE_KEY ==> r[k] == files[k]
  {
    files[NONCE_STATE_KEY := Stored(Obj(LedgerAfter(files, address, chainCount)))]
  }

  /**
   * After a reservation the address's entry is the nonce handed out plus one, whatever
   * the ledger file held before, and the next reservation can step it again.
   */
  lemma ReservedEntry(files: map<string, Record>, address: string, chainCount: int)
    requires LedgerUsable(files, address)
    ensures var after := FilesAfterReserve(files, address, chainCount);
            && Get(LedgerFields(after), address) == Num(ReservedNonce(files, address, chainCount) + 1)
            && LedgerUsable(after, address)
  {
    SaveThenLoad(files, NONCE_STATE_KEY, Obj(LedgerAfter(files, address, chainCount)), Obj(map[]));
  }

  /** A reservation for one address leaves every other address's entry as it read before. */
  lemma ReserveOtherAddress(files: map<string, Record>, address: string, chainCount: int, other: string)
    requires LedgerUsable(files, address) && other != address
    ensures Get(LedgerFields(FilesAfterReserve(files, address, chainCount)), other)
         == Get(LedgerFields(files), other)
  {
    SaveThenLoad(files, NONCE_STATE_KEY, Obj(LedgerAfter(files, address, chainCount)), Obj(map[]));
  }

  /**
   * The nonces handed out by consecutive `getNonce(address)` calls, nothing else
   * touching the ledger in between; `chainCounts[k]` is the chain's count at call `k`.
   */
  function Reservations(files: map<string, Record>, address: string, chainCounts: seq<int>): (r: seq<int>)
    requires LedgerUsable(files, address)
    ensures |r| == |chainCounts|
    ensures chainCounts != [] ==> r[0] == ReservedNonce(files, address, chainCounts[0])
    decreases |chainCounts|
  {
    if chainCounts == [] then []
    else
      ReservedEntry(files, address, chainCounts[0]);
      [ReservedNonce(files, address, chainCounts[0])]
        + Reservations(FilesAfterReserve(files, address, chainCounts[0]), address, chainCounts[1..])
  }

  /**
   * Once a non-negative nonce has been handed out, consecutive calls count up by one
   * from it and ignore the chain's count: no nonce is handed out twice.
   */
  lemma {:induction false} ReservationsCountUp(files: map<string, Record>, address: string, chainCounts: seq<int>)
    requires LedgerUsable(files, address)
    requires chainCounts != [] ==> ReservedNonce(files, address, chainCounts[0]) >= 0
    decreases |chainCounts|
    ensures forall k :: 0 <= k < |chainCounts| ==>
              Reservations(files, address, chainCounts)[k] == ReservedNonce(files, address, chainCounts[0]) + k
    ensures forall i, j :: 0 <= i < j < |chainCounts| ==>
              Reservations(files, address, chainCounts)[i] < Reservations(files, address, chainCounts)[j]
  {
    if chainCounts != [] {
      var n := ReservedNonce(files, address, chainCounts[0]);
      var after := FilesAfterReserve(files, address, chainCounts[0]);
      ReservedEntry(files, address, chainCounts[0]);
      ReservationsCountUp(after, address, chainCounts[1..]);
      var r := Reservations(files, address, chainCounts);
      var rest := Reservations(after, address, chainCounts[1..]);
      assert r == [n] + rest;
      forall k | 0 < k < |chainCounts|
        ensures r[k] == n + k
      {
        assert chainCounts[1..][0] == chainCounts[1];
        assert ReservedNonce(after, address, chainCounts[1]) == n + 1;
        assert r[k] == rest[k - 1];
      }
    }
  }

  // ---------------------------------------------------------------------------
  // Submission with retries

  /**
   * What `contract.pong` or `tx.wait` threw: its `code`, and the value the gas-limit
   * branch passes on (`error.gasLimit * 1.2`, kept as an opaque integer).
   */
  datatype SendError = SendError(code: string, scaledGasLimit: int)

  /** How one attempt ends. */
  datatype SendResult = Confirmed(txHash: string) | Rejected(error: SendError)

  /** One call `contract.pong(hash, {gasLimit, nonce, gasPrice})`, made after waiting `delayMs`. */
  datatype Attempt = Attempt(nonce: int, gasPrice: Option<int>, delayMs: nat)

  /** `callPong` returns the mined transaction or rethrows the last error. */
  datatype PongOutcome = Sent(txHash: string) | Exhausted(error: SendError)

  datatype Run = Run(attempts: seq<Attempt>, outcome: PongOutcome)

  function Pow2(k: nat): (r: nat)
    ensures r >= 1
  {
    if k == 0 then 1 else 2 * Pow2(k - 1)
  }

  /** `2 ** retries * 1000`: the wait in milliseconds after failed attempt number `retries`. */
  function Backoff(retries: nat): (ms: nat)
    ensures ms >= 1000
  {
    Pow2(retries) * 1000
  }

  /** The wait starts at one second and doubles with every further retry. */
  lemma BackoffDoubles(retries: nat)
    ensures Backoff(0) == 1000
    ensures Backoff(retries + 1) == 2 * Backoff(retries)
  {
  }

  /** How many more attempts `sendTransaction(hash, retries)` may still make after this one. */
  function RetriesLeft(maxRetries: int, retries: nat): nat {
    if retries < maxRetries then maxRetries - retries else 0
  }

  /**
   * The attempt that follows attempt `prev` failing with `err` while `failed` retries
   * were used: after `UNPREDICTABLE_GAS_LIMIT` it is made at once with the raised value
   * as gas price; after any other error it is made `2 ** failed * 1000` ms later with
   * the same gas price. The nonce stays.
   */
  function Retry(prev: Attempt, err: SendError, failed: nat): (r: Attempt)
    ensures r.nonce == prev.nonce
    ensures r.delayMs == 0 <==> err.code == UNPREDICTABLE_GAS_LIMIT
    ensures err.code == UNPREDICTABLE_GAS_LIMIT ==> r.gasPrice == Some(err.scaledGasLimit)
    ensures err.code != UNPREDICTABLE_GAS_LIMIT ==> r.gasPrice == prev.gasPrice && r.delayMs >= 1000
    ensures err.code != UNPREDICTABLE_GAS_LIMIT ==> r.delayMs == Backoff(failed)
  {
    if err.code == UNPREDICTABLE_GAS_LIMIT then Attempt(prev.nonce, Some(err.scaledGasLimit), 0)
    else Attempt(prev.nonce, prev.gasPrice, Backoff(failed))
  }

  /**
   * `sendTransaction(hash, retries, gasPrice)`, entered after a wait of `delay`: a
   * failure while `retries < maxRetries` is retried as `Retry` says, a failure with no
   * retries left ends the run with that error.
   */
  function SendLoop(respond: nat -> SendResult, maxRetries: int, nonce: int,
                    retries: nat, gasPrice: Option<int>, delay: nat): (r: Run)
    decreases RetriesLeft(maxRetries, retries)
    ensures 1 <= |r.attempts| <= RetriesLeft(maxRetries, retries) + 1
    ensures r.attempts[0] == Attempt(nonce, gasPrice, delay)
  {
    var here := Attempt(nonce, gasPrice, delay);
    match respond(retries)
    case Confirmed(tx) => Run([here], Sent(tx))
    case Rejected(err) =>
      if retries < maxRetries then
        var next := Retry(here, err, retries);
        var rest := SendLoop(respond, maxRetries, nonce, retries + 1, next.gasPrice, next.delayMs);
        Run([here] + rest.attempts, rest.outcome)
      else
        Run([here], Exhausted(err))
  }

  /** A failed attempt with retries left is followed by the run of the retry. */
  lemma SendLoopRetried(respond: nat -> SendResult, maxRetries: int, nonce: int,
                        retries: nat, gasPrice: Option<int>, delay: nat)
    requires respond(retries).Rejected? && retries < maxRetries
    ensures var next := Retry(Attempt(nonce, gasPrice, delay), respond(retries).error, retries);
            var rest := SendLoop(respond, maxRetries, nonce, retries + 1, next.gasPrice, next.delayMs);
            SendLoop(respond, maxRetries, nonce, retries, gasPrice, delay)
              == Run([Attempt(nonce, gasPrice, delay)] + rest.attempts, rest.outcome)
  {
  }

  /** Every attempt of a run uses the one reserved nonce. */
  lemma {:induction false} SendLoopNonce(respond: nat -> SendResult, maxRetries: int, nonce: int,
                                         retries: nat, gasPrice: Option<int>, delay: nat)
    decreases RetriesLeft(maxRetries, retries)
    ensures forall a :: a in SendLoop(respond, maxRetries, nonce, retries, gasPrice, delay).attempts ==> a.nonce == nonce
  {
    if respond(retries).Rejected? && retries < maxRetries {
      SendLoopRetried(respond, maxRetries, nonce, retries, gasPrice, delay);
      var next := Retry(Attempt(nonce, gasPrice, delay), respond(retries).error, retries);
      SendLoopNonce(respond, maxRetries, nonce, retries + 1, next.gasPrice, next.delayMs);
    }
  }

  /**
   * Every attempt of a run but the last failed; the last one is mined exactly when the
   * run is sent, and an exhausted run failed with its retries used up, so that no
   * attempt follows.
   */
  lemma {:induction false} SendLoopOutcome(respond: nat -> SendResult, maxRetries: int, nonce: int,
                                           retries: nat, gasPrice: Option<int>, delay: nat)
    decreases RetriesLeft(maxRetries, retries)
    ensures var r := SendLoop(respond, maxRetries, nonce, retries, gasPrice, delay);
            var last := retries + |r.attempts| - 1;
            && (forall j :: retries <= j < last ==> respond(j).Rejected?)
            && (r.outcome.Sent? ==> respond(last) == Confirmed(r.outcome.txHash))
            && (r.outcome.Exhausted? ==> respond(last) == Rejected(r.outcome.error) && last >= maxRetries)
  {
    if respond(retries).Rejected? && retries < maxRetries {
      SendLoopRetried(respond, maxRetries, nonce, retries, gasPrice, delay);
      var next := Retry(Attempt(nonce, gasPrice, delay), respond(retries).error, retries);
      SendLoopOutcome(respond, maxRetries, nonce, retries + 1, next.gasPrice, next.delayMs);
    }
  }

  /** A run goes on past its first attempt only when that attempt failed with retries left. */
  lemma SendLoopLong(respond: nat -> SendResult, maxRetries: int, nonce: int,
                     retries: nat, gasPrice: Option<int>, delay: nat)
    requires 1 < |SendLoop(respond, maxRetries, nonce, retries, gasPrice, delay).attempts|
    ensures respond(retries).Rejected? && retries < maxRetries
  {
  }

  /** A mined attempt, or a failed one with no retries left, ends the run. */
  lemma SendLoopEnds(respond: nat -> SendResult, maxRetries: int, nonce: int,
                     retries: nat, gasPrice: Option<int>, delay: nat)
    requires respond(retries).Confirmed? || retries >= maxRetries
    ensures SendLoop(respond, maxRetries, nonce, retries, gasPrice, delay)
         == Run([Attempt(nonce, gasPrice, delay)],
                if respond(retries).Confirmed? then Sent(respond(retries).txHash) else Exhausted(respond(retries).error))
  {
  }

  /** Each attempt after the first follows from the one before as `Retry` says. */
  lemma {:induction false} SendLoopSchedule(respond: nat -> SendResult, maxRetries: int, nonce: int,
                                            retries: nat, gasPrice: Option<int>, delay: nat, k: nat)
    requires 0 < k < |SendLoop(respond, maxRetries, nonce, retries, gasPrice, delay).attempts|
    decreases k
    ensures respond(retries + k - 1).Rejected?
    ensures SendLoop(respond, maxRetries, nonce, retries, gasPrice, delay).attempts[k]
         == Retry(SendLoop(respond, maxRetries, nonce, retries, gasPrice, delay).attempts[k - 1],
                  respond(retries + k - 1).error, retries + k - 1)
  {
    SendLoopLong(respond, maxRetries, nonce, retries, gasPrice, delay);
    SendLoopRetried(respond, maxRetries, nonce, retries, gasPrice, delay);
    var here := Attempt(nonce, gasPrice, delay);
    var next := Retry(here, respond(retries).error, retries);
    var attempts := SendLoop(respond, maxRetries, nonce, retries, gasPrice, delay).attempts;
    var rest := SendLoop(respond, maxRetries, nonce, retries + 1, next.gasPrice, next.delayMs).attempts;
    if k > 1 {
      SendLoopSchedule(respond, maxRetries, nonce, retries + 1, next.gasPrice, next.delayMs, k - 1);
      assert attempts[k] == rest[k - 1] && attempts[k - 1] == rest[k - 2];
    } else {
      assert attempts[1] == rest[0];
    }
  }

  /**
   * A whole `callPong` run: at most `maxRetries + 1` attempts, all with the one nonce,
   * the first one straight away with no gas price of its own, and an exhausted run has
   * made all of them.
   */
  lemma PongRunBounds(respond: nat -> SendResult, maxRetries: int, nonce: int)
    ensures var r := SendLoop(respond, maxRetries, nonce, 0, None, 0);
            && |r.attempts| <= (if maxRetries > 0 then maxRetries else 0) + 1
            && r.attempts[0] == Attempt(nonce, None, 0)
            && (forall a :: a in r.attempts ==> a.nonce == nonce)
            && (r.outcome.Exhausted? ==> |r.attempts| == (if maxRetries > 0 then maxRetries else 0) + 1)
  {
    SendLoopOutcome(respond, maxRetries, nonce, 0, None, 0);
    SendLoopNonce(respond, maxRetries, nonce, 0, None, 0);
  }

  /** The process cache after `getNonce`: the ledger object it loaded and stepped, or what was there. */
  ghost predicate ReserveCache(files: map<string, Record>, address: string, chainCount: int,
                               before: Handle, after: Handle)
    requires LedgerUsable(files, address)
    reads if after.Scalar? then {} else {after.obj}
  {
    match CachedByLoad(files, NONCE_STATE_KEY, Obj(map[]))
    case None => after == before
    case Some(v) =>
      && !after.Proxied?
      && Snapshot(after) == if v.Obj? then Obj(LedgerAfter(files, address, chainCount)) else v
  }

  /** The set of hashes whose re-send went through, over a prefix of the re-send list. */
  function Accepted(s: Table, accepts: (string, int, Option<int>) -> bool): set<string> {
    if s == [] then {}
    else
      var last := s[|s| - 1];
      Accepted(s[..|s| - 1], accepts) + if accepts(last.hash, last.nonce, last.gasPrice) then {last.hash} else {}
  }

  /**
   * One step of the re-send loop: an entry of the dictionary is still there unless its
   * key was already deleted, and deleting it extends the deleted set.
   */
  lemma ResendStep(before: Table, deleted: set<string>, e: PendingEntry)
    requires Unique(before) && e in before
    ensures Lookup(Without(before, deleted), e.hash) == if e.hash in deleted then None else Some(e)
    ensures Without(Without(before, deleted), {e.hash}) == Without(before, deleted + {e.hash})
  {
    LookupMember(before, e);
    WithoutLookup(before, deleted, e.hash);
    WithoutAdd(before, deleted, e.hash);
  }

  /** The re-send list one entry further: that entry's hash joins when its re-send goes through. */
  lemma AcceptedStep(s: Table, k: nat, accepts: (string, int, Option<int>) -> bool)
    requires k < |s|
    ensures Accepted(s[..k + 1], accepts)
         == Accepted(s[..k], accepts) + if accepts(s[k].hash, s[k].nonce, s[k].gasPrice) then {s[k].hash} else {}
  {
    assert s[..k + 1][..k] == s[..k];
  }

  class ContractInteraction {
    const store: Store
    /** `wallet.address`. */
    const address: string
    const maxRetries: int
    /** `pendingTransactions`, kept in memory only. */
    var pending: Table

    ghost predicate Valid()
      reads this, store
    {
      store.Valid() && Unique(pending)
    }

    constructor (store: Store, address: string, maxRetries: int)
      requires store.Valid()
      ensures Valid() && this.store == store && this.address == address && this.maxRetries == maxRetries
      ensures pending == []
    {
      this.store := store;
      this.address := address;
      this.maxRetries := maxRetries;
      pending := [];
    }

    /**
     * `getNonce(wallet.address)`: hand out the ledger's entry (reseeded from the chain's
     * count when missing or falsy) and save the ledger with the entry stepped by one.
     */
    method GetNonce(chainCount: int) returns (nonce: int)
      requires store.Valid() && LedgerUsable(store.files, address)
      modifies store
      ensures store.Valid()
      ensures nonce == ReservedNonce(old(store.files), address, chainCount)
      ensures store.files == FilesAfterReserve(old(store.files), address, chainCount)
      ensures ReserveCache(old(store.files), address, chainCount, old(store.state), store.state)
    {
      ghost var files0 := store.files;
      var nonces := store.LoadState(NONCE_STATE_KEY, Obj(map[]));
      var entry := Get(nonces.obj.fields, address);
      if !Truthy(entry) {
        store.SetField(nonces, address, Num(chainCount));
      }
      nonce := Get(nonces.obj.fields, address).n;
      store.SetField(nonces, address, Num(nonce + 1));
      store.SaveState(NONCE_STATE_KEY, Obj(nonces.obj.fields));
      assert nonces.obj.fields == LedgerAfter(files0, address, chainCount);
    }

    /**
     * `sendTransaction(hash)` with its recursion unrolled: submit with the reserved
     * nonce until an attempt is mined or the retries are used up, then delete the
     * hash's entry; both ways out delete it.
     */
    method SendTransaction(hash: string, nonce: int, respond: nat -> SendResult) returns (run: Run)
      requires Lookup(pending, hash) == Some(PendingEntry(hash, nonce, 0, None))
      modifies this`pending
      ensures run == SendLoop(respond, maxRetries, nonce, 0, None, 0)
      ensures pending == Remove(old(pending), hash)
    {
      ghost var whole := SendLoop(respond, maxRetries, nonce, 0, None, 0);
      var retries: nat, gasPrice: Option<int>, delay: nat := 0, None, 0;
      var attempts: seq<Attempt> := [];
      var outcome: Option<PongOutcome> := None;
      while outcome.None?
        invariant pending == old(pending)
        invariant outcome.None? ==>
                    var rest := SendLoop(respond, maxRetries, nonce, retries, gasPrice, delay);
                    attempts + rest.attempts == whole.attempts && rest.outcome == whole.outcome
        invariant outcome.Some? ==> attempts == whole.attempts && outcome.value == whole.outcome
        decreases RetriesLeft(maxRetries, retries), if outcome.None? then 1 else 0
      {
        var here := Attempt(nonce, gasPrice, delay);
        var response := respond(retries);
        if response.Rejected? && retries < maxRetries {
          var next := Retry(here, response.error, retries);
          SendLoopRetried(respond, maxRetries, nonce, retries, gasPrice, delay);
          ghost var rest := SendLoop(respond, maxRetries, nonce, retries + 1, next.gasPrice, next.delayMs);
          assert (attempts + [here]) + rest.attempts == attempts + ([here] + rest.attempts);
          attempts := attempts + [here];
          retries, gasPrice, delay := retries + 1, next.gasPrice, next.delayMs;
        } else {
          SendLoopEnds(respond, maxRetries, nonce, retries, gasPrice, delay);
          attempts := attempts + [here];
          outcome := Some(if response.Confirmed? then Sent(response.txHash) else Exhausted(response.error));
        }
      }
      // both ways out of `sendTransaction` delete the entry
      pending := Remove(pending, hash);
      run := Run(attempts, outcome.value);
    }

    /**
     * `callPong(transactionHash)`: reserve one nonce, register `{nonce, retries: 0}` for
     * the hash, and run `sendTransaction`, which deletes the entry whether the run is
     * sent or exhausted.
     */
    method CallPong(hash: string, chainCount: int, respond: nat -> SendResult) returns (run: Run)
      requires Valid() && LedgerUsable(store.files, address)
      modifies this, store
      ensures Valid()
      ensures run == SendLoop(respond, maxRetries, ReservedNonce(old(store.files), address, chainCount), 0, None, 0)
      ensures pending == Remove(old(pending), hash)
      ensures store.files == FilesAfterReserve(old(store.files), address, chainCount)
      ensures ReserveCache(old(store.files), address, chainCount, old(store.state), store.state)
    {
      var nonce := GetNonce(chainCount);
      var entry := PendingEntry(hash, nonce, 0, None);
      RemoveAfterPut(pending, entry);
      WithoutUnique(pending, {hash});
      PutLookup(pending, entry);
      pending := Put(pending, entry);
      run := SendTransaction(hash, nonce, respond);
    }

    /**
     * The loop of `processQueue` over the re-send list: an entry still pending is
     * re-sent with its registered nonce and deleted when the re-send goes through; an
     * error is logged and the loop goes on.
     */
    method Resend(resent: Table, accepts: (string, int, Option<int>) -> bool)
      requires Unique(pending) && forall e :: e in resent ==> e in pending
      modifies this`pending
      ensures pending == Without(old(pending), Accepted(resent, accepts)) && Unique(pending)
    {
      ghost var before := pending;
      WithoutNothing(before);
      for k := 0 to |resent|
        invariant pending == Without(before, Accepted(resent[..k], accepts))
      {
        var e := resent[k];
        ghost var deleted := Accepted(resent[..k], accepts);
        ResendStep(before, deleted, e);
        AcceptedStep(resent, k, accepts);
        // `this.pendingTransactions[hash].nonce` throws inside the try when the entry is gone
        match Lookup(pending, e.hash)
        case None =>
          assert e.hash in deleted;
          assert Accepted(resent[..k + 1], accepts) == deleted;
        case Some(current) =>
          assert current == e;
          if accepts(e.hash, current.nonce, e.gasPrice) {
            pending := Remove(pending, e.hash);
            assert pending == Without(before, deleted + {e.hash});
            assert Accepted(resent[..k + 1], accepts) == deleted + {e.hash};
          } else {
            assert Accepted(resent[..k + 1], accepts) == deleted;
          }
      }
      assert resent[..|resent|] == resent;
      WithoutUnique(before, Accepted(resent, accepts));
    }

    /**
     * `processQueue`: reserve one nonce, then re-send, in ascending nonce order, every
     * pending entry reserved below it; only entries whose re-send went through are
     * deleted.
     */
    method ProcessQueue(chainCount: int, accepts: (string, int, Option<int>) -> bool) returns (resent: Table)
      requires Valid() && LedgerUsable(store.files, address)
      modifies this, store
      ensures Valid()
      ensures resent == SelectForResend(old(pending), ReservedNonce(old(store.files), address, chainCount))
      ensures pending == Without(old(pending), Accepted(resent, accepts))
      ensures store.files == FilesAfterReserve(old(store.files), address, chainCount)
      ensures ReserveCache(old(store.files), address, chainCount, old(store.state), store.state)
    {
      var nonce := GetNonce(chainCount);
      resent := SelectForResend(pending, nonce);
      Resend(resent, accepts);
    }
  }
}
