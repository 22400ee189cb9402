/**
 * One tick of the poll driver (backend/cron/service.go): scan the current
 * block window, move the window forward by a fixed step whatever the scan
 * returned, and wrap the scan's lists in a `cron_tick` event for the hub.
 * The scan is `ScanMultipleContracts` over the one configured contract; the
 * chain, the clock and the JSON encoder are parameters.
 */
module Cron {
  import opened Wrappers
  import opened Bytes
  import opened Decimal
  import opened Events
  import opened Models
  import Scanner
  import Batch

  const BlockStep: int := 1000
  const TickEventName: string := "cron_tick"
  const EmptyObject: string := "{}"

  /** The block bounds as the text the driver keeps between ticks. */
  datatype Window = Window(fromBlock: string, toBlock: string)

  /** The envelope serialized into each tick's message. */
  datatype EventsData = EventsData(transferEvents: seq<TransferEvent>, approvalEvents: seq<ApprovalEvent>, timestamp: string)

  /**
   * `fromBlock = toBlock; toBlock = Itoa(Atoi(fromBlock) + 1000)`: text that
   * does not parse counts as 0, and the 64-bit addition wraps around.
   */
  function Advance(w: Window): (r: Window)
    ensures r.fromBlock == w.toBlock
    ensures IsDecimal(r.toBlock)
    ensures Atoi(r.fromBlock) + BlockStep <= MaxInt64 ==> Atoi(r.toBlock) == Atoi(r.fromBlock) + BlockStep
    ensures Atoi(r.fromBlock) + BlockStep > MaxInt64 ==> Atoi(r.toBlock) == Atoi(r.fromBlock) + BlockStep - TwoTo64
  {
    var n := Wrap64(Atoi(w.toBlock) + BlockStep);
    AtoiOfItoa(n);
    ItoaIsDecimal(n);
    Window(w.toBlock, Itoa(n))
  }

  /** The window scanned at tick `k`, counting from 0. */
  function WindowAt(w: Window, k: nat): Window
  {
    if k == 0 then w else Advance(WindowAt(w, k - 1))
  }

  /**
   * Windows are contiguous, and once the cursor has moved, each upper bound
   * is the initial one plus 1000 per tick, for as long as that fits in 64 bits.
   */
  lemma {:induction false} WindowsAdvanceByStep(w: Window, k: nat)
    requires Atoi(w.toBlock) + BlockStep * k <= MaxInt64
    ensures WindowAt(w, k + 1).fromBlock == WindowAt(w, k).toBlock
    ensures Atoi(WindowAt(w, k).toBlock) == Atoi(w.toBlock) + BlockStep * k
  {
    if k > 0 {
      WindowsAdvanceByStep(w, k - 1);
    }
  }

  /** From the third tick (k >= 2) on both bounds are numbers `SetString` accepts, and the window is 1000 blocks wide. */
  lemma LaterWindowsAreNumeric(w: Window, k: nat)
    requires k >= 2
    requires Atoi(w.toBlock) + BlockStep * k <= MaxInt64
    ensures IsDecimal(WindowAt(w, k).fromBlock) && IsDecimal(WindowAt(w, k).toBlock)
    ensures Atoi(WindowAt(w, k).toBlock) == Atoi(WindowAt(w, k).fromBlock) + BlockStep
  {
    WindowsAdvanceByStep(w, k - 1);
    WindowsAdvanceByStep(w, k);
  }

  /** The scan's lists go into the envelope unchanged; a failed scan has none. */
  function Envelope(scan: Batch.ScanResult, timestamp: string): (r: EventsData)
    ensures scan.Ok? ==> r.transferEvents == scan.value.0 && r.approvalEvents == scan.value.1
    ensures scan.Err? ==> r.transferEvents == [] && r.approvalEvents == []
    ensures r.timestamp == timestamp
  {
    match scan
    case Ok((transfers, approvals)) => EventsData(transfers, approvals, timestamp)
    case Err(_) => EventsData([], [], timestamp)
  }

  /** The serialized envelope, or `{}` when serialization fails. */
  function TickMessage(data: EventsData, marshal: EventsData -> Option<string>): (m: string)
    ensures marshal(data).Some? ==> m == marshal(data).value
    ensures marshal(data).None? ==> m == EmptyObject
  {
    match marshal(data)
    case Some(json) => json
    case None => EmptyObject
  }

  /**
   * One tick, given what the scan of window `w` returned: advance the window
   * (whether or not the scan failed), and emit a `cron_tick` event whose
   * message is the serialized envelope.
   */
  function Tick(w: Window, result: Batch.ScanResult, timestamp: string,
                marshal: EventsData -> Option<string>): (r: (Window, Event))
    ensures r.0 == Advance(w)
    ensures r.1.event == TickEventName
    ensures var data := Envelope(result, timestamp);
      && (marshal(data).Some? ==> r.1.message == marshal(data).value)
      && (marshal(data).None? ==> r.1.message == EmptyObject)
  {
    var next := Advance(w);
    (next, Event(TickEventName, TickMessage(Envelope(result, timestamp), marshal)))
  }

  /**
   * With a JSON decoder that inverts the encoder, a tick's message reads back
   * as the scan's two lists and the timestamp (empty lists when the scan
   * failed); a message that could not be encoded is `{}`.
   */
  lemma TickMessageDecodes(w: Window, result: Batch.ScanResult, timestamp: string,
                           marshal: EventsData -> Option<string>, unmarshal: string -> Option<EventsData>)
    requires forall d | marshal(d).Some? :: unmarshal(marshal(d).value) == Some(d)
    ensures var data := EventsData(if result.Ok? then result.value.0 else [],
                                   if result.Ok? then result.value.1 else [], timestamp);
      && (marshal(data).Some? ==> unmarshal(Tick(w, result, timestamp, marshal).1.message) == Some(data))
      && (marshal(data).None? ==> Tick(w, result, timestamp, marshal).1.message == EmptyObject)
  {
  }

  /**
   * What the service scans each tick: `ScanMultipleContracts` over the one
   * configured contract and the current window's bounds. The chain is only
   * read once the client is connected.
   */
  predicate ServiceScanAdmissible(w: Window, contract: string, hexToAddress: string -> Address,
                                  rpcUrl: string, chain: Scanner.Chain)
  {
    && (w.fromBlock == "" || IsDecimal(w.fromBlock))
    && (w.toBlock == "" || IsDecimal(w.toBlock))
    && (Batch.Connected(rpcUrl, chain) ==>
          Batch.ScansWellFormed(chain, Batch.BuildConfigs([contract], w.fromBlock, w.toBlock, hexToAddress)))
  }

  function ServiceScan(w: Window, contract: string, hexToAddress: string -> Address,
                       rpcUrl: string, chain: Scanner.Chain, schedule: seq<nat>): Batch.ScanResult
    requires ServiceScanAdmissible(w, contract, hexToAddress, rpcUrl, chain)
  {
    Batch.ScanMultipleContracts([contract], w.fromBlock, w.toBlock, hexToAddress, rpcUrl, chain, schedule)
  }

  /**
   * The body of the service's ticker case: scan the current window for the
   * configured contract, then tick. The next window starts where this one
   * ended, and the event is a `cron_tick`.
   */
  function ServiceTick(w: Window, contract: string, hexToAddress: string -> Address,
                       rpcUrl: string, chain: Scanner.Chain, schedule: seq<nat>,
                       timestamp: string, marshal: EventsData -> Option<string>): (r: (Window, Event))
    requires ServiceScanAdmissible(w, contract, hexToAddress, rpcUrl, chain)
    ensures r.0 == Advance(w) && r.0.fromBlock == w.toBlock
    ensures r.1.event == TickEventName
  {
    Tick(w, ServiceScan(w, contract, hexToAddress, rpcUrl, chain, schedule), timestamp, marshal)
  }

  /**
   * With an inverse decoder, a service tick's message reads back as the lists
   * `ScanMultipleContracts` returned for the window, or as empty lists when
   * the RPC URL is unset or the dial failed.
   */
  lemma ServiceTickCarriesScan(w: Window, contract: string, hexToAddress: string -> Address,
                               rpcUrl: string, chain: Scanner.Chain, schedule: seq<nat>,
                               timestamp: string, marshal: EventsData -> Option<string>,
                               unmarshal: string -> Option<EventsData>)
    requires ServiceScanAdmissible(w, contract, hexToAddress, rpcUrl, chain)
    requires forall d | marshal(d).Some? :: unmarshal(marshal(d).value) == Some(d)
    ensures var scan := ServiceScan(w, contract, hexToAddress, rpcUrl, chain, schedule);
      var data := EventsData(if Batch.Connected(rpcUrl, chain) then scan.value.0 else [],
                             if Batch.Connected(rpcUrl, chain) then scan.value.1 else [], timestamp);
      marshal(data).Some? ==>
        unmarshal(ServiceTick(w, contract, hexToAddress, rpcUrl, chain, schedule, timestamp, marshal).1.message)
          == Some(data)
  {
    var scan := ServiceScan(w, contract, hexToAddress, rpcUrl, chain, schedule);
    TickMessageDecodes(w, scan, timestamp, marshal, unmarshal);
  }
}
