/**
 * The shapes the bot shares between its parts: the persisted bot state with its
 * optional pending transaction, how that state is written as a JSON object, and
 * the Ping events read from the chain.
 */
module BotTypes {
  import opened Wrappers
  import opened Json

  /** The key of the bot state record. */
  const BOT_STATE_KEY: string := "bot-state"

  datatype TransactionStatus = Pending | Mined | Failed

  datatype PendingTxn = PendingTxn(nonce: int, status: TransactionStatus, hash: string, txnHash: string)

  datatype BotState = BotState(
    lastProcessedBlock: int,
    lastProcessedEventIndex: int,
    pendingTxn: Option<PendingTxn>)

  /** The strings the enum's members stand for. */
  function StatusText(s: TransactionStatus): string {
    match s
    case Pending => "pending"
    case Mined => "mined"
    case Failed => "failed"
  }

  function ParseStatus(v: Value): (r: Option<TransactionStatus>)
    ensures r.Some? ==> v == Str(StatusText(r.value))
    ensures forall s :: v == Str(StatusText(s)) ==> r == Some(s)
  {
    if v == Str("pending") then Some(Pending)
    else if v == Str("mined") then Some(Mined)
    else if v == Str("failed") then Some(Failed)
    else None
  }

  function EncodePending(p: PendingTxn): Value {
    Obj(map[
      "nonce" := Num(p.nonce),
      "status" := Str(StatusText(p.status)),
      "hash" := Str(p.hash),
      "txnHash" := Str(p.txnHash)])
  }

  function DecodePending(v: Value): Option<PendingTxn> {
    if !v.Obj? then None
    else
      var nonce, status, hash, txnHash :=
        Get(v.fields, "nonce"), ParseStatus(Get(v.fields, "status")),
        Get(v.fields, "hash"), Get(v.fields, "txnHash");
      if nonce.Num? && status.Some? && hash.Str? && txnHash.Str? then
        Some(PendingTxn(nonce.n, status.value, hash.s, txnHash.s))
      else None
  }

  /** The object `JSON.stringify` writes for a bot state. */
  function Encode(s: BotState): (v: Value)
    ensures v.Obj? && Get(v.fields, "lastProcessedBlock") == Num(s.lastProcessedBlock)
    ensures Get(v.fields, "lastProcessedEventIndex") == Num(s.lastProcessedEventIndex)
    ensures s.pendingTxn.None? <==> !Truthy(Get(v.fields, "pendingTxn"))
  {
    var checkpoint := map[
      "lastProcessedBlock" := Num(s.lastProcessedBlock),
      "lastProcessedEventIndex" := Num(s.lastProcessedEventIndex)];
    match s.pendingTxn
    case None => Obj(checkpoint)
    case Some(p) => Obj(checkpoint["pendingTxn" := EncodePending(p)])
  }

  /**
   * Reads an object as a bot state: both checkpoint fields must be numbers, and a
   * truthy `pendingTxn` must have the pending transaction's shape. Other fields are
   * ignored.
   */
  function Decode(v: Value): (r: Option<BotState>)
    ensures r.Some? ==> v.Obj?
    ensures r.Some? ==> Get(v.fields, "lastProcessedBlock") == Num(r.value.lastProcessedBlock)
    ensures r.Some? ==> Get(v.fields, "lastProcessedEventIndex") == Num(r.value.lastProcessedEventIndex)
    ensures r.Some? ==> (r.value.pendingTxn.Some? <==> Truthy(Get(v.fields, "pendingTxn")))
  {
    if !v.Obj? then None
    else
      var block, index, pending :=
        Get(v.fields, "lastProcessedBlock"), Get(v.fields, "lastProcessedEventIndex"),
        Get(v.fields, "pendingTxn");
      if !(block.Num? && index.Num?) then None
      else if !Truthy(pending) then Some(BotState(block.n, index.n, None))
      else
        match DecodePending(pending)
        case None => None
        case Some(p) => Some(BotState(block.n, index.n, Some(p)))
  }

  /** Writing a bot state and reading it back gives the same state. */
  lemma DecodeEncode(s: BotState)
    ensures Decode(Encode(s)) == Some(s)
  {
    match s.pendingTxn
    case None =>
    case Some(p) =>
      var v := EncodePending(p);
      assert Get(v.fields, "status") == Str(StatusText(p.status));
      assert DecodePending(v) == Some(p);
  }

  /** Assigning a number to `lastProcessedEventIndex` changes only that field of the state. */
  lemma DecodeSetIndex(fields: map<string, Value>, n: int)
    requires Decode(Obj(fields)).Some?
    ensures Decode(Obj(fields["lastProcessedEventIndex" := Num(n)]))
         == Some(Decode(Obj(fields)).value.(lastProcessedEventIndex := n))
  {
    assert Get(fields["lastProcessedEventIndex" := Num(n)], "pendingTxn") == Get(fields, "pendingTxn");
  }

  /** Assigning a number to `lastProcessedBlock` changes only that field of the state. */
  lemma DecodeSetBlock(fields: map<string, Value>, n: int)
    requires Decode(Obj(fields)).Some?
    ensures Decode(Obj(fields["lastProcessedBlock" := Num(n)]))
         == Some(Decode(Obj(fields)).value.(lastProcessedBlock := n))
  {
    assert Get(fields["lastProcessedBlock" := Num(n)], "pendingTxn") == Get(fields, "pendingTxn");
  }

  /**
   * Assigning `pendingTxn.status = 'mined'` in place marks the pending transaction
   * Mined and changes nothing else.
   */
  lemma DecodeMarkMined(fields: map<string, Value>)
    requires Decode(Obj(fields)).Some? && Decode(Obj(fields)).value.pendingTxn.Some?
    ensures Get(fields, "pendingTxn").Obj?
    ensures var inner := Get(fields, "pendingTxn").fields;
            var s := Decode(Obj(fields)).value;
            Decode(Obj(fields["pendingTxn" := Obj(inner["status" := Str(StatusText(Mined))])]))
              == Some(s.(pendingTxn := Some(s.pendingTxn.value.(status := Mined))))
  {
    var inner := Get(fields, "pendingTxn").fields;
    var marked := Obj(inner["status" := Str(StatusText(Mined))]);
    assert ParseStatus(Get(marked.fields, "status")) == Some(Mined);
    assert DecodePending(marked).Some?;
  }

  /** The state a first boot starts from: `{lastProcessedBlock: currentBlock, lastProcessedEventIndex: 0}`. */
  function DefaultState(currentBlock: int): (s: BotState)
    ensures Encode(s) == Obj(map["lastProcessedBlock" := Num(currentBlock), "lastProcessedEventIndex" := Num(0)])
  {
    BotState(currentBlock, 0, None)
  }

  /** A Ping event as the chain reports it; `hash` is the event's `hash` argument. */
  datatype PingEvent = PingEvent(transactionHash: string, blockNumber: int, hash: string)

  /** The Ping events of blocks `from` to `to` inclusive, in chain order. */
  function Query(chain: seq<PingEvent>, from: int, to: int): (r: seq<PingEvent>)
    ensures |r| <= |chain|
  {
    if chain == [] then []
    else
      var rest := Query(chain[1..], from, to);
      if from <= chain[0].blockNumber <= to then [chain[0]] + rest else rest
  }

  /** The query holds exactly the chain's events whose block lies in the range. */
  lemma {:induction false} QueryMembers(chain: seq<PingEvent>, from: int, to: int)
    ensures forall e :: e in Query(chain, from, to) <==> e in chain && from <= e.blockNumber <= to
  {
    if chain != [] {
      QueryMembers(chain[1..], from, to);
      assert chain == [chain[0]] + chain[1..];
    }
  }

  /** An empty range holds no event. */
  lemma {:induction false} QueryEmptyRange(chain: seq<PingEvent>, from: int, to: int)
    requires to < from
    ensures Query(chain, from, to) == []
  {
    if chain != [] {
      QueryEmptyRange(chain[1..], from, to);
    }
  }

  /** The query of a chain with one more event in front. */
  lemma QueryCons(e: PingEvent, rest: seq<PingEvent>, from: int, to: int)
    ensures Query([e] + rest, from, to) == (if from <= e.blockNumber <= to then [e] else []) + Query(rest, from, to)
  {
    assert ([e] + rest)[1..] == rest;
  }

  /** The chain reports events in block order: each event's block is no later than the next one's. */
  ghost predicate BlockSorted(chain: seq<PingEvent>) {
    |chain| <= 1 || (chain[0].blockNumber <= chain[1].blockNumber && BlockSorted(chain[1..]))
  }

  /** Nothing of a block-sorted chain starting above `to` lies in a range ending at `to`. */
  lemma {:induction false} QueryEmptyAbove(chain: seq<PingEvent>, from: int, to: int)
    requires BlockSorted(chain) && chain != [] && chain[0].blockNumber > to
    ensures Query(chain, from, to) == []
  {
    if |chain| > 1 {
      assert chain[1..][0] == chain[1];
      QueryEmptyAbove(chain[1..], from, to);
    }
  }

  /** On a block-sorted chain, widening the range upwards only appends events. */
  lemma {:induction false} QueryPrefix(chain: seq<PingEvent>, from: int, to: int, to': int)
    requires BlockSorted(chain) && to <= to'
    ensures |Query(chain, from, to)| <= |Query(chain, from, to')|
    ensures Query(chain, from, to) == Query(chain, from, to')[..|Query(chain, from, to)|]
  {
    if chain != [] {
      QueryPrefix(chain[1..], from, to, to');
      if chain[0].blockNumber > to {
        QueryEmptyAbove(chain, from, to);
      }
    }
  }

  /** On a block-sorted chain, the events of `[from, mid]` followed by those of `[mid + 1, to]` are those of `[from, to]`. */
  lemma {:induction false} QuerySplit(chain: seq<PingEvent>, from: int, mid: int, to: int)
    requires BlockSorted(chain) && from - 1 <= mid <= to
    ensures Query(chain, from, mid) + Query(chain, mid + 1, to) == Query(chain, from, to)
  {
    if chain != [] {
      QuerySplit(chain[1..], from, mid, to);
      var b := chain[0].blockNumber;
      if mid < b {
        QueryEmptyAbove(chain, from, mid);
        if |chain| > 1 {
          assert chain[1..][0] == chain[1];
          QueryEmptyAbove(chain[1..], from, mid);
        }
      }
    }
  }
}
