/**
 * `scanForEvent`: one scanner queries the chain for the logs of one
 * (contract, event kind) pair over a block range and tags each log with
 * its own event kind and contract. The chain client and Keccak-256 are
 * parameters of the model.
 */
module Scanner {
  import opened Wrappers
  import opened Bytes
  import opened Events

  /** A log as the chain client returns it. */
  datatype Log = Log(address: Address, topics: seq<Word>, data: seq<byte>, blockNumber: nat, txHash: Word)

  /**
   * `ethereum.FilterQuery`: a block range (`None` is a nil bound, "latest"
   * for the upper one), the contracts to match, and for each topic
   * position the hashes accepted there.
   */
  datatype Query = Query(fromBlock: Option<int>, toBlock: Option<int>, addresses: seq<Address>, topics: seq<seq<Word>>)

  /** What the scanners need from the outside world. */
  datatype Chain = Chain(
    dial: string -> bool,                  // `ethclient.Dial` succeeds for this URL
    filterLogs: Query -> Option<seq<Log>>, // the logs matching a query; `None` when the call fails
    keccak: string -> Word)                // Keccak-256 of the signature text

  /** The event signature a scanner of kind `t` filters on; no other kind has one. */
  function EventSignature(t: EventType): (r: Option<string>)
    ensures r == Some(TransferSig) <==> t == TransferType
    ensures r == Some(ApprovalSig) <==> t == ApprovalType
    ensures r.None? <==> t != TransferType && t != ApprovalType
  {
    if t == TransferType then Some(TransferSig)
    else if t == ApprovalType then Some(ApprovalSig)
    else None
  }

  /**
   * The address and topic criteria of a filter query, read as an Ethereum
   * node reads them: the log's address must be listed (an empty list accepts
   * any), the log needs at least as many topics as the query has positions,
   * and at each position with hashes listed its topic must be one of them.
   */
  predicate Matches(q: Query, log: Log) {
    && (q.addresses == [] || log.address in q.addresses)
    && |q.topics| <= |log.topics|
    && (forall i | 0 <= i < |q.topics| :: q.topics[i] == [] || log.topics[i] in q.topics[i])
  }

  /**
   * The query for one contract and one signature: it keeps the block range
   * as given and accepts exactly the logs of that contract whose topic 0 is
   * the signature's hash.
   */
  function FilterQuery(chain: Chain, contract: Address, from: Option<int>, to: Option<int>, sig: string): (q: Query)
    ensures q.fromBlock == from && q.toBlock == to
    ensures forall log: Log :: Matches(q, log) <==>
      log.address == contract && |log.topics| >= 1 && log.topics[0] == chain.keccak(sig)
  {
    Query(from, to, [contract], [[chain.keccak(sig)]])
  }

  /** Each log becomes one `EventData` carrying the scanner's kind and contract, not the log's address. */
  function TagLogs(logs: seq<Log>, t: EventType, contract: Address): (r: seq<EventData>)
    ensures |r| == |logs|
    ensures forall k | 0 <= k < |r| ::
      && r[k].eventType == t && r[k].contractAddr == contract
      && r[k].blockNumber == logs[k].blockNumber && r[k].txHash == logs[k].txHash
      && r[k].topics == logs[k].topics && r[k].data == logs[k].data
  {
    if logs == [] then []
    else
      [EventData(t, contract, logs[0].blockNumber, logs[0].txHash, logs[0].topics, logs[0].data)]
      + TagLogs(logs[1..], t, contract)
  }

  /**
   * `scanForEvent`: an unknown kind and a failed RPC call both produce no
   * output; otherwise one tagged entry per returned log, in log order.
   */
  function ScanForEvent(chain: Chain, contract: Address, from: Option<int>, to: Option<int>, t: EventType): (r: seq<EventData>)
    ensures EventSignature(t).None? ==> r == []
    ensures EventSignature(t).Some? ==>
      var q := FilterQuery(chain, contract, from, to, EventSignature(t).value);
      && q.addresses == [contract] && q.fromBlock == from && q.toBlock == to
      && q.topics == [[chain.keccak(if t == TransferType then TransferSig else ApprovalSig)]]
      && (chain.filterLogs(q).None? ==> r == [])
      && (chain.filterLogs(q).Some? ==> r == TagLogs(chain.filterLogs(q).value, t, contract))
  {
    match EventSignature(t)
    case None => []
    case Some(sig) =>
      match chain.filterLogs(FilterQuery(chain, contract, from, to, sig))
      case None => []
      case Some(logs) => TagLogs(logs, t, contract)
  }

  /** Every entry a scanner emits carries the scanner's own kind and contract. */
  lemma ScanOutputTagged(chain: Chain, contract: Address, from: Option<int>, to: Option<int>, t: EventType)
    ensures forall e | e in ScanForEvent(chain, contract, from, to, t) ::
      e.eventType == t && e.contractAddr == contract && (t == TransferType || t == ApprovalType)
  {
  }
}
