/**
 * The `pendingTransactions` dictionary of the contract interaction module: one
 * entry per Ping hash, in JavaScript's property order (insertion order, because
 * transaction hashes are never integer-like keys), and the re-send selection of
 * `processQueue`: the entries below a nonce, sorted by nonce.
 */
module PendingTable {
  import opened Wrappers

  /** `pendingTransactions[hash] = {nonce, retries, gasPrice}`. */
  datatype PendingEntry = PendingEntry(hash: string, nonce: int, retries: int, gasPrice: Option<int>)

  /** The dictionary's entries in property order. */
  type Table = seq<PendingEntry>

  /** `pendingTransactions[hash]`. */
  function Lookup(t: Table, hash: string): (r: Option<PendingEntry>)
    ensures r.Some? ==> r.value in t && r.value.hash == hash
    ensures r.None? ==> forall e :: e in t ==> e.hash != hash
  {
    if t == [] then None
    else if t[0].hash == hash then Some(t[0])
    else Lookup(t[1..], hash)
  }

  /** A dictionary holds at most one entry per key. */
  ghost predicate Unique(t: Table) {
    t == [] || (Lookup(t[1..], t[0].hash).None? && Unique(t[1..]))
  }

  /** In a dictionary, an entry is what its own key looks up. */
  lemma {:induction false} LookupMember(t: Table, e: PendingEntry)
    requires Unique(t) && e in t
    ensures Lookup(t, e.hash) == Some(e)
  {
    if t[0] != e {
      assert e in t[1..];
      LookupMember(t[1..], e);
    }
  }

  /**
   * `t[e.hash] = e`: an existing key keeps its position and takes the new value, a new
   * key goes at the end.
   */
  function Put(t: Table, e: PendingEntry): (r: Table)
    ensures forall x :: x in r ==> x == e || x in t
    ensures Lookup(t, e.hash).None? ==> r == t + [e]
    ensures Lookup(t, e.hash).Some? ==> |r| == |t|
    ensures Unique(t) && Lookup(t, e.hash).Some? ==>
              forall k :: 0 <= k < |t| ==> r[k] == if t[k].hash == e.hash then e else t[k]
  {
    if t == [] then [e]
    else if t[0].hash == e.hash then
      assert Unique(t) ==> forall k :: 1 <= k < |t| ==> t[k] in t[1..];
      [e] + t[1..]
    else [t[0]] + Put(t[1..], e)
  }

  /** After `t[e.hash] = e` the key looks up `e`, every other key what it did, and keys stay unique. */
  lemma {:induction false} PutLookup(t: Table, e: PendingEntry)
    requires Unique(t)
    ensures Unique(Put(t, e)) && Lookup(Put(t, e), e.hash) == Some(e)
    ensures forall h :: h != e.hash ==> Lookup(Put(t, e), h) == Lookup(t, h)
  {
    if t != [] && t[0].hash != e.hash {
      PutLookup(t[1..], e);
      assert Put(t, e) == [t[0]] + Put(t[1..], e);
    }
  }

  /** `delete t[h]` for every `h` in `hs`; the remaining entries keep their order. */
  function Without(t: Table, hs: set<string>): (r: Table)
    ensures forall x :: x in r <==> x in t && x.hash !in hs
    ensures |r| <= |t|
  {
    if t == [] then []
    else if t[0].hash in hs then Without(t[1..], hs)
    else [t[0]] + Without(t[1..], hs)
  }

  /** After the deletions a deleted key looks up nothing and every other key what it did. */
  lemma {:induction false} WithoutLookup(t: Table, hs: set<string>, h: string)
    ensures Lookup(Without(t, hs), h) == if h in hs then None else Lookup(t, h)
  {
    if t != [] {
      WithoutLookup(t[1..], hs, h);
    }
  }

  /** Deleting keys keeps the keys of a dictionary unique. */
  lemma {:induction false} WithoutUnique(t: Table, hs: set<string>)
    requires Unique(t)
    ensures Unique(Without(t, hs))
  {
    if t != [] {
      WithoutUnique(t[1..], hs);
      WithoutLookup(t[1..], hs, t[0].hash);
    }
  }

  /** `delete t[hash]`. */
  function Remove(t: Table, hash: string): (r: Table)
    ensures forall x :: x in r <==> x in t && x.hash != hash
  {
    Without(t, {hash})
  }

  /** After `delete t[hash]` the key looks up nothing, every other key what it did, and keys stay unique. */
  lemma RemoveLookup(t: Table, hash: string)
    requires Unique(t)
    ensures Unique(Remove(t, hash)) && Lookup(Remove(t, hash), hash).None?
    ensures forall h :: h != hash ==> Lookup(Remove(t, hash), h) == Lookup(t, h)
  {
    WithoutUnique(t, {hash});
    forall h {
      WithoutLookup(t, {hash}, h);
    }
  }

  /** Registering an entry and deleting it again leaves the dictionary as deleting its key would. */
  lemma {:induction false} RemoveAfterPut(t: Table, e: PendingEntry)
    requires Unique(t)
    ensures Remove(Put(t, e), e.hash) == Remove(t, e.hash)
  {
    if t != [] && t[0].hash != e.hash {
      RemoveAfterPut(t[1..], e);
      assert Put(t, e) == [t[0]] + Put(t[1..], e);
      assert Without([t[0]] + Put(t[1..], e), {e.hash}) == [t[0]] + Without(Put(t[1..], e), {e.hash});
    } else if t != [] {
      assert Put(t, e) == [e] + t[1..];
      assert Without([e] + t[1..], {e.hash}) == Without(t[1..], {e.hash});
    }
  }

  /** Deleting no key changes nothing. */
  lemma {:induction false} WithoutNothing(t: Table)
    ensures Without(t, {}) == t
  {
    if t != [] {
      WithoutNothing(t[1..]);
      assert t == [t[0]] + t[1..];
    }
  }

  /** Deleting one more key. */
  lemma {:induction false} WithoutAdd(t: Table, hs: set<string>, h: string)
    ensures Without(Without(t, hs), {h}) == Without(t, hs + {h})
  {
    if t != [] {
      WithoutAdd(t[1..], hs, h);
    }
  }

  /** The entries reserved below `nonce`, in property order (the `filter` step). */
  function Due(t: Table, nonce: int): (r: Table)
    ensures forall x :: x in r <==> x in t && x.nonce < nonce
  {
    if t == [] then []
    else if t[0].nonce < nonce then [t[0]] + Due(t[1..], nonce)
    else Due(t[1..], nonce)
  }

  ghost predicate SortedByNonce(s: Table) {
    forall i, j :: 0 <= i < j < |s| ==> s[i].nonce <= s[j].nonce
  }

  /** An entry no later than the head of a sorted list can go in front of it. */
  lemma SortedCons(x: PendingEntry, s: Table)
    requires SortedByNonce(s) && (s != [] ==> x.nonce <= s[0].nonce)
    ensures SortedByNonce([x] + s)
  {
    var r := [x] + s;
    forall i, j | 0 <= i < j < |r|
      ensures r[i].nonce <= r[j].nonce
    {
      if i == 0 {
        assert r[j] == s[j - 1] && s[0].nonce <= s[j - 1].nonce;
      } else {
        assert r[i] == s[i - 1] && r[j] == s[j - 1];
      }
    }
  }

  /** Puts `e` before the first entry whose nonce is not below its own. */
  function Insert(e: PendingEntry, s: Table): (r: Table)
    requires SortedByNonce(s)
    ensures SortedByNonce(r)
    ensures multiset(r) == multiset(s) + multiset{e}
    ensures r[0] == if s != [] && s[0].nonce < e.nonce then s[0] else e
  {
    if s == [] then [e]
    else if e.nonce <= s[0].nonce then
      SortedCons(e, s);
      [e] + s
    else
      assert s == [s[0]] + s[1..];
      var rest := Insert(e, s[1..]);
      SortedCons(s[0], rest);
      [s[0]] + rest
  }

  /** The `sort((a, b) => a.nonce - b.nonce)` step. */
  function SortByNonce(s: Table): (r: Table)
    ensures SortedByNonce(r)
    ensures multiset(r) == multiset(s)
  {
    if s == [] then []
    else
      assert s == [s[0]] + s[1..];
      Insert(s[0], SortByNonce(s[1..]))
  }

  /** The entries of `s` reserved with nonce `n`, in the order of `s`. */
  function WithNonce(s: Table, n: int): Table {
    if s == [] then [] else (if s[0].nonce == n then [s[0]] else []) + WithNonce(s[1..], n)
  }

  /** `WithNonce` holds exactly the entries of the list reserved with that nonce. */
  lemma {:induction false} WithNonceMembers(s: Table, n: int)
    ensures forall x :: x in WithNonce(s, n) <==> x in s && x.nonce == n
  {
    if s != [] {
      WithNonceMembers(s[1..], n);
      assert s == [s[0]] + s[1..];
    }
  }

  /** The entries of one nonce in a list with one more entry in front. */
  lemma WithNonceCons(x: PendingEntry, s: Table, n: int)
    ensures WithNonce([x] + s, n) == (if x.nonce == n then [x] else []) + WithNonce(s, n)
  {
    assert ([x] + s)[1..] == s;
  }

  /** The tail of a sorted list is sorted. */
  lemma SortedTail(s: Table)
    requires SortedByNonce(s) && s != []
    ensures SortedByNonce(s[1..])
  {
    forall i, j | 0 <= i < j < |s| - 1
      ensures s[1..][i].nonce <= s[1..][j].nonce
    {
      assert s[1..][i] == s[i + 1] && s[1..][j] == s[j + 1];
    }
  }

  /** Inserting above the head keeps the head in front. */
  lemma InsertAbove(e: PendingEntry, s: Table)
    requires SortedByNonce(s) && s != [] && s[0].nonce < e.nonce
    ensures SortedByNonce(s[1..]) && Insert(e, s) == [s[0]] + Insert(e, s[1..])
  {
    SortedTail(s);
  }

  /** Inserting below the head puts the new entry in front. */
  lemma InsertBelow(e: PendingEntry, s: Table)
    requires SortedByNonce(s) && (s == [] || e.nonce <= s[0].nonce)
    ensures Insert(e, s) == [e] + s
  {
  }

  /** The head of lower nonce in front of both sides keeps the stability equation. */
  lemma ConsBelow(e: PendingEntry, rest: Table, s: Table, n: int)
    requires s != [] && s[0].nonce < e.nonce
    requires WithNonce(rest, n) == (if e.nonce == n then [e] else []) + WithNonce(s[1..], n)
    ensures WithNonce([s[0]] + rest, n) == (if e.nonce == n then [e] else []) + WithNonce(s, n)
  {
    var tail := WithNonce(s[1..], n);
    WithNonceCons(s[0], rest, n);
    if e.nonce == n {
      assert WithNonce(s, n) == [] + tail == tail;
      assert WithNonce([s[0]] + rest, n) == [] + WithNonce(rest, n);
    } else {
      assert WithNonce(rest, n) == [] + tail == tail;
    }
  }

  /** Inserting puts `e` in front of the entries that share its nonce and moves no other entry of that nonce. */
  lemma {:induction false} InsertStable(e: PendingEntry, s: Table, n: int)
    requires SortedByNonce(s)
    ensures WithNonce(Insert(e, s), n) == (if e.nonce == n then [e] else []) + WithNonce(s, n)
  {
    if s == [] || e.nonce <= s[0].nonce {
      InsertBelow(e, s);
      WithNonceCons(e, s, n);
    } else {
      InsertAbove(e, s);
      InsertStable(e, s[1..], n);
      ConsBelow(e, Insert(e, s[1..]), s, n);
    }
  }

  /** The sort is stable: the entries of each nonce keep the order they had. */
  lemma {:induction false} SortByNonceStable(s: Table, n: int)
    ensures WithNonce(SortByNonce(s), n) == WithNonce(s, n)
  {
    if s != [] {
      SortByNonceStable(s[1..], n);
      InsertStable(s[0], SortByNonce(s[1..]), n);
    }
  }

  /** The filter keeps the entries of a due nonce in dictionary order and drops the others. */
  lemma {:induction false} DueWithNonce(t: Table, nonce: int, n: int)
    ensures WithNonce(Due(t, nonce), n) == if n < nonce then WithNonce(t, n) else []
  {
    if t != [] {
      DueWithNonce(t[1..], nonce, n);
      if t[0].nonce < nonce {
        assert ([t[0]] + Due(t[1..], nonce))[1..] == Due(t[1..], nonce);
      }
    }
  }

  /**
   * The re-send list of `processQueue`: exactly the entries whose nonce is below
   * `nonce`, each as often as in the dictionary, in ascending nonce order, entries of
   * one nonce in dictionary order.
   */
  function SelectForResend(t: Table, nonce: int): (r: Table)
    ensures SortedByNonce(r)
    ensures multiset(r) == multiset(Due(t, nonce))
    ensures forall x :: x in r <==> x in t && x.nonce < nonce
    ensures forall n :: WithNonce(r, n) == if n < nonce then WithNonce(t, n) else []
  {
    var r := SortByNonce(Due(t, nonce));
    assert forall x :: x in r <==> x in multiset(Due(t, nonce));
    assert forall n :: WithNonce(r, n) == if n < nonce then WithNonce(t, n) else [] by {
      forall n
        ensures WithNonce(r, n) == if n < nonce then WithNonce(t, n) else []
      {
        SortByNonceStable(Due(t, nonce), n);
        DueWithNonce(t, nonce, n);
      }
    }
    r
  }
}
