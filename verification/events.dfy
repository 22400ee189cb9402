/**
 * Decoding of EIP-20 `Transfer` and `Approval` logs and the partition of a
 * stream of raw logs into two typed lists (section "Events" of EIP-20).
 * Both events are `(address indexed, address indexed, uint256)`: the two
 * addresses come from topics 1 and 2, the amount from the first data word.
 */
module Events {
  import opened Wrappers
  import opened Bytes
  import opened Seqs

  /** An event kind is a plain string; only two of them are understood. */
  type EventType = string

  const TransferType: EventType := "Transfer"
  const ApprovalType: EventType := "Approval"

  const TransferSig: string := "Transfer(address,address,uint256)"
  const ApprovalSig: string := "Approval(address,address,uint256)"

  /** A raw log tagged with the scanner's event kind and contract. */
  datatype EventData = EventData(
    eventType: EventType,
    contractAddr: Address,
    blockNumber: nat,
    txHash: Word,
    topics: seq<Word>,
    data: seq<byte>)

  datatype TransferEvent = TransferEvent(
    from: Address,
    to: Address,
    value: nat,
    blockNumber: nat,
    txHash: Word,
    contractAddr: Address)

  datatype ApprovalEvent = ApprovalEvent(
    owner: Address,
    spender: Address,
    value: nat,
    blockNumber: nat,
    txHash: Word,
    contractAddr: Address)

  /**
   * Unpacking the one non-indexed `uint256` parameter: the first 32-byte
   * word of the data read big-endian. Data shorter than one word is an error;
   * bytes after the first word are ignored.
   */
  function UnpackUint256(data: seq<byte>): (r: Option<nat>)
    ensures r.Some? <==> |data| >= 32
    ensures r.Some? ==> r.value < Pow256(32)
  {
    if |data| < 32 then None else Some(BigEndian(data[..32]))
  }

  /** Unpacking reads back the amount an encoder wrote in the first data word. */
  lemma UnpackOfEncoding(v: nat, rest: seq<byte>)
    requires v < Pow256(32)
    ensures UnpackUint256(ToBigEndian(v, 32) + rest) == Some(v)
  {
    assert (ToBigEndian(v, 32) + rest)[..32] == ToBigEndian(v, 32);
    BigEndianOfEncoding(v, 32);
  }

  /** `processTransferEvent`: no provenance yet, and it reads topics 1 and 2 unchecked. */
  function ProcessTransferEvent(e: EventData): (r: Option<TransferEvent>)
    requires |e.topics| >= 3
    ensures r.Some? <==> |e.data| >= 32
    ensures r.Some? ==>
      && r.value.from == LowAddress(e.topics[1])
      && r.value.to == LowAddress(e.topics[2])
      && r.value.value < Pow256(32)
      && r.value.blockNumber == 0 && r.value.txHash == ZeroWord && r.value.contractAddr == ZeroAddress
  {
    var from := LowAddress(e.topics[1]);
    var to := LowAddress(e.topics[2]);
    match UnpackUint256(e.data)
    case None => None
    case Some(v) => Some(TransferEvent(from, to, v, 0, ZeroWord, ZeroAddress))
  }

  /** `processApprovalEvent`: the same layout with owner and spender. */
  function ProcessApprovalEvent(e: EventData): (r: Option<ApprovalEvent>)
    requires |e.topics| >= 3
    ensures r.Some? <==> |e.data| >= 32
    ensures r.Some? ==>
      && r.value.owner == LowAddress(e.topics[1])
      && r.value.spender == LowAddress(e.topics[2])
      && r.value.value < Pow256(32)
      && r.value.blockNumber == 0 && r.value.txHash == ZeroWord && r.value.contractAddr == ZeroAddress
  {
    var owner := LowAddress(e.topics[1]);
    var spender := LowAddress(e.topics[2]);
    match UnpackUint256(e.data)
    case None => None
    case Some(v) => Some(ApprovalEvent(owner, spender, v, 0, ZeroWord, ZeroAddress))
  }

  /** The log an EIP-20 token emits for `Transfer(from, to, value)` or `Approval(owner, spender, value)`. */
  function EncodedLog(kind: EventType, contract: Address, block: nat, tx: Word, sigHash: Word,
                      a: Address, b: Address, value: nat): EventData
    requires value < Pow256(32)
  {
    EventData(kind, contract, block, tx, [sigHash, PadAddress(a), PadAddress(b)], ToBigEndian(value, 32))
  }

  /** Decoding an encoded Transfer log recovers its from, to and amount, zero amount and zero address included. */
  lemma DecodeEncodedTransfer(contract: Address, block: nat, tx: Word, sigHash: Word,
                              from: Address, to: Address, value: nat)
    requires value < Pow256(32)
    ensures ProcessTransferEvent(EncodedLog(TransferType, contract, block, tx, sigHash, from, to, value))
         == Some(TransferEvent(from, to, value, 0, ZeroWord, ZeroAddress))
  {
    UnpackOfEncoding(value, []);
    assert ToBigEndian(value, 32) + [] == ToBigEndian(value, 32);
  }

  /** Decoding an encoded Approval log recovers its owner, spender and amount. */
  lemma DecodeEncodedApproval(contract: Address, block: nat, tx: Word, sigHash: Word,
                              owner: Address, spender: Address, value: nat)
    requires value < Pow256(32)
    ensures ProcessApprovalEvent(EncodedLog(ApprovalType, contract, block, tx, sigHash, owner, spender, value))
         == Some(ApprovalEvent(owner, spender, value, 0, ZeroWord, ZeroAddress))
  {
    UnpackOfEncoding(value, []);
    assert ToBigEndian(value, 32) + [] == ToBigEndian(value, 32);
  }

  /** The decoders index topics 1 and 2 of every log of a known kind without a length check. */
  predicate WellFormed(e: EventData) {
    (e.eventType == TransferType || e.eventType == ApprovalType) ==> |e.topics| >= 3
  }

  /** Every log of the stream is well formed; defined the way `ProcessEvents` walks the stream. */
  predicate AllWellFormed(events: seq<EventData>) {
    events == [] || (AllWellFormed(events[..|events| - 1]) && WellFormed(events[|events| - 1]))
  }

  lemma {:induction false} AllWellFormedConcat(xs: seq<EventData>, ys: seq<EventData>)
    ensures AllWellFormed(xs + ys) <==> AllWellFormed(xs) && AllWellFormed(ys)
    decreases |ys|
  {
    if ys == [] {
      ConcatEmpty(xs);
    } else {
      ConcatLast(xs, ys);
      AllWellFormedConcat(xs, ys[..|ys| - 1]);
    }
  }

  lemma {:induction false} AllWellFormedIndexed(events: seq<EventData>)
    ensures AllWellFormed(events) <==> forall i | 0 <= i < |events| :: WellFormed(events[i])
    decreases |events|
  {
    if events != [] {
      var init := events[..|events| - 1];
      AllWellFormedIndexed(init);
      assert forall i | 0 <= i < |init| :: init[i] == events[i];
    }
  }

  /** A Transfer-kind log whose data holds an amount. */
  predicate DecodableTransfer(e: EventData) {
    e.eventType == TransferType && |e.topics| >= 3 && |e.data| >= 32
  }

  predicate DecodableApproval(e: EventData) {
    e.eventType == ApprovalType && |e.topics| >= 3 && |e.data| >= 32
  }

  /** Reference reading of a Transfer log, with the provenance of the log itself. */
  function TransferOfLog(e: EventData): TransferEvent
    requires DecodableTransfer(e)
  {
    TransferEvent(LowAddress(e.topics[1]), LowAddress(e.topics[2]), BigEndian(e.data[..32]),
                  e.blockNumber, e.txHash, e.contractAddr)
  }

  function ApprovalOfLog(e: EventData): ApprovalEvent
    requires DecodableApproval(e)
  {
    ApprovalEvent(LowAddress(e.topics[1]), LowAddress(e.topics[2]), BigEndian(e.data[..32]),
                  e.blockNumber, e.txHash, e.contractAddr)
  }

  function CountOf(events: seq<EventData>, kind: EventType): nat
  {
    if events == [] then 0
    else CountOf(events[..|events| - 1], kind) + (if events[|events| - 1].eventType == kind then 1 else 0)
  }

  /**
   * What one log adds to the two lists: a log of a known kind that decodes
   * is stamped with its block number, transaction hash and contract and
   * goes to the list of its kind; any other log adds nothing.
   */
  function Contribution(e: EventData): (r: (seq<TransferEvent>, seq<ApprovalEvent>))
    requires WellFormed(e)
    ensures r.0 == (if DecodableTransfer(e) then [TransferOfLog(e)] else [])
    ensures r.1 == (if DecodableApproval(e) then [ApprovalOfLog(e)] else [])
  {
    if e.eventType == TransferType then
      match ProcessTransferEvent(e)
      case Some(t) => ([StampTransfer(t, e)], [])
      case None => ([], [])
    else if e.eventType == ApprovalType then
      match ProcessApprovalEvent(e)
      case Some(a) => ([], [StampApproval(a, e)])
      case None => ([], [])
    else ([], [])
  }

  /** Copies block number, transaction hash and contract from the log that produced `t`. */
  function StampTransfer(t: TransferEvent, e: EventData): TransferEvent
  {
    t.(blockNumber := e.blockNumber, txHash := e.txHash, contractAddr := e.contractAddr)
  }

  function StampApproval(a: ApprovalEvent, e: EventData): ApprovalEvent
  {
    a.(blockNumber := e.blockNumber, txHash := e.txHash, contractAddr := e.contractAddr)
  }

  /**
   * `processEvents`: walk the stream in order and append each log's
   * contribution; no list is longer than the number of logs of its kind.
   */
  function ProcessEvents(events: seq<EventData>): (r: (seq<TransferEvent>, seq<ApprovalEvent>))
    requires AllWellFormed(events)
    ensures |r.0| <= CountOf(events, TransferType)
    ensures |r.1| <= CountOf(events, ApprovalType)
  {
    if events == [] then ([], [])
    else
      var init, last := events[..|events| - 1], events[|events| - 1];
      var prev := ProcessEvents(init);
      var c := Contribution(last);
      (prev.0 + c.0, prev.1 + c.1)
  }

  lemma ProcessEventsStep(events: seq<EventData>)
    requires events != [] && AllWellFormed(events)
    ensures AllWellFormed(events[..|events| - 1]) && WellFormed(events[|events| - 1])
    ensures ProcessEvents(events).0 == ProcessEvents(events[..|events| - 1]).0 + Contribution(events[|events| - 1]).0
    ensures ProcessEvents(events).1 == ProcessEvents(events[..|events| - 1]).1 + Contribution(events[|events| - 1]).1
  {
  }

  /** Every listed event is the stamped decoding of some log of its own kind in the stream. */
  lemma {:induction false} ProcessEventsSound(events: seq<EventData>)
    requires AllWellFormed(events)
    ensures forall t | t in ProcessEvents(events).0 :: exists e | e in events :: DecodableTransfer(e) && t == TransferOfLog(e)
    ensures forall a | a in ProcessEvents(events).1 :: exists e | e in events :: DecodableApproval(e) && a == ApprovalOfLog(e)
  {
    if events != [] {
      var init, last := events[..|events| - 1], events[|events| - 1];
      ProcessEventsStep(events);
      ProcessEventsSound(init);
      var prev, r := ProcessEvents(init), ProcessEvents(events);
      forall t | t in r.0 ensures exists e | e in events :: DecodableTransfer(e) && t == TransferOfLog(e) {
        if t in prev.0 {
          var e :| e in init && DecodableTransfer(e) && t == TransferOfLog(e);
          assert e in events;
        } else {
          assert DecodableTransfer(last) && t == TransferOfLog(last);
        }
      }
      forall a | a in r.1 ensures exists e | e in events :: DecodableApproval(e) && a == ApprovalOfLog(e) {
        if a in prev.1 {
          var e :| e in init && DecodableApproval(e) && a == ApprovalOfLog(e);
          assert e in events;
        } else {
          assert DecodableApproval(last) && a == ApprovalOfLog(last);
        }
      }
    }
  }

  /** Every decodable log of the stream reaches the list of its kind, stamped with its own provenance. */
  lemma {:induction false} ProcessEventsComplete(events: seq<EventData>)
    requires AllWellFormed(events)
    ensures forall e | e in events && DecodableTransfer(e) :: TransferOfLog(e) in ProcessEvents(events).0
    ensures forall e | e in events && DecodableApproval(e) :: ApprovalOfLog(e) in ProcessEvents(events).1
  {
    if events != [] {
      var init, last := events[..|events| - 1], events[|events| - 1];
      ProcessEventsStep(events);
      ProcessEventsComplete(init);
      SplitLast(events);
      forall e | e in events ensures e in init || e == last {
        assert e in init + [last];
      }
    }
  }

  /** Processing a concatenation processes each part and concatenates the lists: output order is input order. */
  lemma {:induction false} ProcessEventsConcat(xs: seq<EventData>, ys: seq<EventData>)
    requires AllWellFormed(xs) && AllWellFormed(ys)
    ensures AllWellFormed(xs + ys)
    ensures ProcessEvents(xs + ys).0 == ProcessEvents(xs).0 + ProcessEvents(ys).0
    ensures ProcessEvents(xs + ys).1 == ProcessEvents(xs).1 + ProcessEvents(ys).1
  {
    AllWellFormedConcat(xs, ys);
    if ys == [] {
      ConcatEmpty(xs);
      ConcatEmpty(ProcessEvents(xs).0);
      ConcatEmpty(ProcessEvents(xs).1);
    } else {
      var yi := ys[..|ys| - 1];
      var c := Contribution(ys[|ys| - 1]);
      ConcatLast(xs, ys);
      ProcessEventsConcat(xs, yi);
      ProcessEventsStep(xs + ys);
      ProcessEventsStep(ys);
      AppendAssoc(ProcessEvents(xs).0, ProcessEvents(yi).0, c.0);
      AppendAssoc(ProcessEvents(xs).1, ProcessEvents(yi).1, c.1);
    }
  }

  /** What a single log contributes: its decoding to the list of its own kind and nothing to the other. */
  lemma ProcessSingleEvent(e: EventData)
    requires WellFormed(e)
    ensures AllWellFormed([e])
    ensures ProcessEvents([e]).0 == (if DecodableTransfer(e) then [TransferOfLog(e)] else [])
    ensures ProcessEvents([e]).1 == (if DecodableApproval(e) then [ApprovalOfLog(e)] else [])
  {
    assert [e][..0] == [];
  }

  /**
   * The lists' contents do not depend on the order of the stream: two
   * streams holding the same logs, in any order, decode to the same
   * multisets of Transfer and of Approval events.
   */
  lemma {:induction false} ProcessEventsPermutation(xs: seq<EventData>, ys: seq<EventData>)
    requires AllWellFormed(xs) && AllWellFormed(ys)
    requires multiset(xs) == multiset(ys)
    ensures multiset(ProcessEvents(xs).0) == multiset(ProcessEvents(ys).0)
    ensures multiset(ProcessEvents(xs).1) == multiset(ProcessEvents(ys).1)
    decreases |xs|
  {
    if xs == [] {
      assert |ys| == |multiset(ys)| == 0;
    } else {
      var x, xr := xs[0], xs[1..];
      assert x in multiset(ys);
      var j :| 0 <= j < |ys| && ys[j] == x;
      var y1, y2 := ys[..j], ys[j + 1..];
      SplitAround(xs, ys, j);
      ProcessEventsPermutation(xr, y1 + y2);
      ProcessEventsConcat([x], xr);
      ProcessEventsConcat(y1, y2);
      ProcessEventsConcat([x], y2);
      ProcessEventsConcat(y1, [x] + y2);
      var px, p1, p2 := ProcessEvents([x]), ProcessEvents(y1), ProcessEvents(y2);
      MultisetShuffle(px.0, ProcessEvents(xr).0, p1.0, p2.0);
      MultisetShuffle(px.1, ProcessEvents(xr).1, p1.1, p2.1);
    }
  }

  /** Removing the first log of `xs` and its copy at `ys[j]` keeps the two streams permutations of each other. */
  lemma SplitAround(xs: seq<EventData>, ys: seq<EventData>, j: nat)
    requires AllWellFormed(xs) && AllWellFormed(ys)
    requires multiset(xs) == multiset(ys)
    requires xs != [] && j < |ys| && ys[j] == xs[0]
    ensures xs == [xs[0]] + xs[1..]
    ensures ys == ys[..j] + ([xs[0]] + ys[j + 1..])
    ensures AllWellFormed([xs[0]]) && AllWellFormed(xs[1..])
    ensures AllWellFormed(ys[..j]) && AllWellFormed(ys[j + 1..]) && AllWellFormed(ys[..j] + ys[j + 1..])
    ensures multiset(xs[1..]) == multiset(ys[..j] + ys[j + 1..])
  {
    var x, y1, y2 := xs[0], ys[..j], ys[j + 1..];
    SplitAt(ys, j);
    SplitFirst(xs);
    RemoveMatched(xs, ys, j);
    AllWellFormedConcat(y1, y2);
    AllWellFormedConcat([x], xs[1..]);
    AllWellFormedConcat(y1 + [x], y2);
    AllWellFormedConcat(y1, [x]);
  }
}
