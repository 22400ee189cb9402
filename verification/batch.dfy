/**
 * `BatchScanEvents`, `ScanMultipleContracts` and `ScanTransferEvents`:
 * connect once, start one scanner per (contract, event kind) pair, merge
 * the scanners' outputs through one channel and decode the merged stream.
 * The order in which scanner outputs reach the channel is the `schedule`
 * parameter (see module FanIn).
 */
module Batch {
  import opened Wrappers
  import opened Bytes
  import opened Decimal
  import opened Events
  import opened FanIn
  import opened Scanner
  import opened Seqs

  /** `ContractEventConfig`: a block bound of `None` is a nil `*big.Int`. */
  datatype Config = Config(contractAddress: Address, eventTypes: seq<EventType>, fromBlock: Option<int>, toBlock: Option<int>)

  /** The arguments one scanner goroutine is started with. */
  datatype Job = Job(contract: Address, eventType: EventType, fromBlock: Option<int>, toBlock: Option<int>)

  datatype ScanError =
    | UsageError     // no contract address argument
    | RpcUrlNotSet   // ETH_RPC_URL is empty
    | DialFailed     // ethclient.Dial returned an error

  type ScanResult = Result<(seq<TransferEvent>, seq<ApprovalEvent>), ScanError>

  /** Channel slots reserved per scanner. */
  const SlotsPerScanner: nat := 100

  function EventTypeTotal(configs: seq<Config>): nat
  {
    if configs == [] then 0
    else EventTypeTotal(configs[..|configs| - 1]) + |configs[|configs| - 1].eventTypes|
  }

  function JobsFor(c: Config, kinds: seq<EventType>): (r: seq<Job>)
    ensures |r| == |kinds|
    ensures forall j | 0 <= j < |r| :: r[j] == Job(c.contractAddress, kinds[j], c.fromBlock, c.toBlock)
  {
    if kinds == [] then [] else [Job(c.contractAddress, kinds[0], c.fromBlock, c.toBlock)] + JobsFor(c, kinds[1..])
  }

  /** The scanners started, in the order of the two nested loops. */
  function Jobs(configs: seq<Config>): (r: seq<Job>)
    ensures |r| == EventTypeTotal(configs)
  {
    if configs == [] then []
    else Jobs(configs[..|configs| - 1]) + JobsFor(configs[|configs| - 1], configs[|configs| - 1].eventTypes)
  }

  /** Position of the scanner for event kind `j` of config `i`. */
  function PairIndex(configs: seq<Config>, i: nat, j: nat): nat
    requires i <= |configs|
  {
    EventTypeTotal(configs[..i]) + j
  }

  /**
   * Exactly one scanner per (config, event kind) pair, duplicates included,
   * started with that config's contract and block bounds.
   */
  lemma {:induction false} JobsArePairs(configs: seq<Config>, i: nat, j: nat)
    requires i < |configs| && j < |configs[i].eventTypes|
    ensures PairIndex(configs, i, j) < |Jobs(configs)|
    ensures Jobs(configs)[PairIndex(configs, i, j)]
         == Job(configs[i].contractAddress, configs[i].eventTypes[j], configs[i].fromBlock, configs[i].toBlock)
  {
    var n := |configs|;
    var init := configs[..n - 1];
    var last := configs[n - 1];
    assert Jobs(configs) == Jobs(init) + JobsFor(last, last.eventTypes);
    if i == n - 1 {
      assert configs[..i] == init;
      ConcatIndex(Jobs(init), JobsFor(last, last.eventTypes), PairIndex(configs, i, j));
    } else {
      assert init[..i] == configs[..i];
      JobsArePairs(init, i, j);
      TotalOfPrefix(init, i + 1);
      assert init[..i + 1][..i] == configs[..i];
      ConcatIndex(Jobs(init), JobsFor(last, last.eventTypes), PairIndex(configs, i, j));
    }
  }

  lemma {:induction false} TotalOfPrefix(configs: seq<Config>, i: nat)
    requires 0 < i <= |configs|
    ensures EventTypeTotal(configs[..i]) == EventTypeTotal(configs[..i - 1]) + |configs[i - 1].eventTypes|
    ensures EventTypeTotal(configs[..i]) <= EventTypeTotal(configs)
  {
    assert configs[..i][..i - 1] == configs[..i - 1];
    if i < |configs| {
      TotalOfPrefix(configs[..|configs| - 1], i);
      assert configs[..|configs| - 1][..i] == configs[..i];
      assert configs[..|configs| - 1][..i - 1] == configs[..i - 1];
    } else {
      assert configs[..i] == configs;
    }
  }

  lemma {:induction false} TotalMonotone(configs: seq<Config>, i: nat, k: nat)
    requires i <= k <= |configs|
    ensures EventTypeTotal(configs[..i]) <= EventTypeTotal(configs[..k])
    decreases k - i
  {
    if i < k {
      TotalMonotone(configs, i, k - 1);
      TotalOfPrefix(configs, k);
    }
  }

  /** Distinct pairs get distinct scanners. */
  lemma PairIndexInjective(configs: seq<Config>, i1: nat, j1: nat, i2: nat, j2: nat)
    requires i1 < |configs| && j1 < |configs[i1].eventTypes|
    requires i2 < |configs| && j2 < |configs[i2].eventTypes|
    requires PairIndex(configs, i1, j1) == PairIndex(configs, i2, j2)
    ensures i1 == i2 && j1 == j2
  {
    if i1 < i2 {
      TotalOfPrefix(configs, i1 + 1);
      TotalMonotone(configs, i1 + 1, i2);
    } else if i2 < i1 {
      TotalOfPrefix(configs, i2 + 1);
      TotalMonotone(configs, i2 + 1, i1);
    }
  }

  /** The buffer size loop: 100 slots per scanner, summed over the configs' event kinds. */
  method BufferSize(configs: seq<Config>) returns (size: nat)
    ensures size == SlotsPerScanner * |Jobs(configs)|
  {
    var total := 0;
    var i := 0;
    while i < |configs|
      invariant i <= |configs|
      invariant total == EventTypeTotal(configs[..i])
    {
      assert configs[..i + 1][..i] == configs[..i];
      total := total + |configs[i].eventTypes|;
      i := i + 1;
    }
    assert configs[..i] == configs;
    size := total * SlotsPerScanner;
  }

  function ScanJob(chain: Chain, job: Job): seq<EventData>
  {
    ScanForEvent(chain, job.contract, job.fromBlock, job.toBlock, job.eventType)
  }

  /** What each scanner sends, scanner by scanner. */
  function Outputs(chain: Chain, jobs: seq<Job>): (r: seq<seq<EventData>>)
    ensures |r| == |jobs|
    ensures forall k | 0 <= k < |r| :: r[k] == ScanJob(chain, jobs[k])
  {
    if jobs == [] then [] else [ScanJob(chain, jobs[0])] + Outputs(chain, jobs[1..])
  }

  /** The decoders' precondition for every log a scanner of these configs can send. */
  predicate ScansWellFormed(chain: Chain, configs: seq<Config>)
  {
    var outs := Outputs(chain, Jobs(configs));
    forall k | 0 <= k < |outs| :: AllWellFormed(outs[k])
  }

  lemma MergedWellFormed(streams: seq<seq<EventData>>, schedule: seq<nat>)
    requires forall k | 0 <= k < |streams| :: AllWellFormed(streams[k])
    ensures AllWellFormed(Items(Merge(streams, schedule)))
  {
    var z := Items(Merge(streams, schedule));
    forall m | 0 <= m < |z| ensures WellFormed(z[m]) {
      MergeItemsFromStreams(streams, schedule, z[m]);
      var k :| 0 <= k < |streams| && z[m] in streams[k];
      var i :| 0 <= i < |streams[k]| && streams[k][i] == z[m];
      AllWellFormedIndexed(streams[k]);
    }
    AllWellFormedIndexed(z);
  }

  /** The decoded result of one run of the scanners, for one arrival order. */
  function Collect(streams: seq<seq<EventData>>, schedule: seq<nat>): (r: (seq<TransferEvent>, seq<ApprovalEvent>))
    requires forall k | 0 <= k < |streams| :: AllWellFormed(streams[k])
  {
    MergedWellFormed(streams, schedule);
    ProcessEvents(Items(Merge(streams, schedule)))
  }

  /** The connection `ethclient.Dial` opens, made only when the RPC URL is set. */
  predicate Connected(rpcUrl: string, chain: Chain) {
    rpcUrl != "" && chain.dial(rpcUrl)
  }

  /**
   * `BatchScanEvents`: an empty RPC URL or a failed dial is an error with
   * no result lists; otherwise the decoded merge of all scanners' outputs.
   * The logs are only read, and so only need to be well formed, once the
   * client is connected.
   */
  function BatchScanEvents(configs: seq<Config>, rpcUrl: string, chain: Chain, schedule: seq<nat>): (r: ScanResult)
    requires Connected(rpcUrl, chain) ==> ScansWellFormed(chain, configs)
    ensures r == Err(RpcUrlNotSet) <==> rpcUrl == ""
    ensures r == Err(DialFailed) <==> rpcUrl != "" && !chain.dial(rpcUrl)
    ensures r.Ok? <==> Connected(rpcUrl, chain)
    ensures r.Ok? ==> exists tagged :: IsInterleaving(tagged, Outputs(chain, Jobs(configs)))
                                    && AllWellFormed(Items(tagged))
                                    && r.value == ProcessEvents(Items(tagged))
    ensures r.Ok? && configs == [] ==> r.value == ([], [])
  {
    if rpcUrl == "" then Err(RpcUrlNotSet)
    else if !chain.dial(rpcUrl) then Err(DialFailed)
    else
      var outs := Outputs(chain, Jobs(configs));
      MergeIsInterleaving(outs, schedule);
      MergedWellFormed(outs, schedule);
      Ok(Collect(outs, schedule))
  }

  /**
   * The arrival order changes at most the order of the lists: any two
   * schedules give the same multisets of Transfer and of Approval events.
   */
  lemma BatchScanScheduleIndependent(configs: seq<Config>, rpcUrl: string, chain: Chain, s1: seq<nat>, s2: seq<nat>)
    requires Connected(rpcUrl, chain) && ScansWellFormed(chain, configs)
    ensures BatchScanEvents(configs, rpcUrl, chain, s1).Ok? && BatchScanEvents(configs, rpcUrl, chain, s2).Ok?
    ensures multiset(BatchScanEvents(configs, rpcUrl, chain, s1).value.0)
         == multiset(BatchScanEvents(configs, rpcUrl, chain, s2).value.0)
    ensures multiset(BatchScanEvents(configs, rpcUrl, chain, s1).value.1)
         == multiset(BatchScanEvents(configs, rpcUrl, chain, s2).value.1)
  {
    var outs := Outputs(chain, Jobs(configs));
    MergeMultiset(outs, s1);
    MergeMultiset(outs, s2);
    MergedWellFormed(outs, s1);
    MergedWellFormed(outs, s2);
    ProcessEventsPermutation(Items(Merge(outs, s1)), Items(Merge(outs, s2)));
  }

  /** A decodable log from any scanner reaches the result list of its kind, stamped with its provenance. */
  lemma BatchScanKeepsEveryDecodableLog(configs: seq<Config>, rpcUrl: string, chain: Chain, schedule: seq<nat>, k: nat, e: EventData)
    requires Connected(rpcUrl, chain) && ScansWellFormed(chain, configs)
    requires k < |Jobs(configs)| && e in ScanJob(chain, Jobs(configs)[k])
    ensures DecodableTransfer(e) ==> TransferOfLog(e) in BatchScanEvents(configs, rpcUrl, chain, schedule).value.0
    ensures DecodableApproval(e) ==> ApprovalOfLog(e) in BatchScanEvents(configs, rpcUrl, chain, schedule).value.1
  {
    var outs := Outputs(chain, Jobs(configs));
    var z := Items(Merge(outs, schedule));
    MergeMultiset(outs, schedule);
    SumMultisetContains(outs, k, e);
    assert e in multiset(z);
    MergedWellFormed(outs, schedule);
    ProcessEventsComplete(z);
  }

  lemma {:induction false} SumMultisetContains<T>(streams: seq<seq<T>>, k: nat, x: T)
    requires k < |streams| && x in streams[k]
    ensures x in SumMultiset(streams)
  {
    if k > 0 {
      SumMultisetContains(streams[1..], k - 1, x);
    }
  }

  /** The lower bound is never nil: `big.NewInt(0)` for an empty string, else the parsed number. */
  function FromBound(s: string): (r: Option<int>)
    requires s == "" || IsDecimal(s)
    ensures r.Some?
    ensures s == "" ==> r.value == 0
  {
    if s == "" then Some(0) else Some(DecimalValue(s))
  }

  /** The upper bound is nil ("latest") exactly for an empty string, else the parsed number. */
  function ToBound(s: string): (r: Option<int>)
    requires s == "" || IsDecimal(s)
    ensures r.None? <==> s == ""
  {
    if s == "" then None else Some(DecimalValue(s))
  }

  /** A block number written by `strconv.Itoa` is read back as that same number by both bounds. */
  lemma BoundsOfItoa(n: int)
    ensures IsDecimal(Itoa(n))
    ensures FromBound(Itoa(n)) == Some(n) && ToBound(Itoa(n)) == Some(n)
  {
    ItoaIsDecimal(n);
  }

  /** One config per address, in order, each scanning Transfer and Approval over the shared bounds. */
  function BuildConfigs(addresses: seq<string>, fromStr: string, toStr: string, hexToAddress: string -> Address): (r: seq<Config>)
    requires fromStr == "" || IsDecimal(fromStr)
    requires toStr == "" || IsDecimal(toStr)
    ensures |r| == |addresses|
    ensures forall i | 0 <= i < |r| ::
      && r[i].contractAddress == hexToAddress(addresses[i])
      && r[i].eventTypes == [TransferType, ApprovalType]
      && r[i].fromBlock == (if fromStr == "" then Some(0) else Some(DecimalValue(fromStr)))
      && r[i].toBlock == (if toStr == "" then None else Some(DecimalValue(toStr)))
  {
    if addresses == [] then []
    else
      [Config(hexToAddress(addresses[0]), [TransferType, ApprovalType], FromBound(fromStr), ToBound(toStr))]
      + BuildConfigs(addresses[1..], fromStr, toStr, hexToAddress)
  }

  /** `ScanMultipleContracts` starts exactly two scanners per address. */
  lemma BuildConfigsScannerCount(addresses: seq<string>, fromStr: string, toStr: string, hexToAddress: string -> Address)
    requires fromStr == "" || IsDecimal(fromStr)
    requires toStr == "" || IsDecimal(toStr)
    ensures |Jobs(BuildConfigs(addresses, fromStr, toStr, hexToAddress))| == 2 * |addresses|
  {
    var cs := BuildConfigs(addresses, fromStr, toStr, hexToAddress);
    TotalOfTwoKinds(cs);
  }

  lemma {:induction false} TotalOfTwoKinds(configs: seq<Config>)
    requires forall i | 0 <= i < |configs| :: |configs[i].eventTypes| == 2
    ensures EventTypeTotal(configs) == 2 * |configs|
  {
    if configs != [] {
      TotalOfTwoKinds(configs[..|configs| - 1]);
    }
  }

  /**
   * `ScanMultipleContracts`: the configs built from the addresses and the
   * shared bounds, scanned as one batch; no address means no scanner.
   */
  function ScanMultipleContracts(addresses: seq<string>, fromStr: string, toStr: string, hexToAddress: string -> Address,
                                 rpcUrl: string, chain: Chain, schedule: seq<nat>): (r: ScanResult)
    requires fromStr == "" || IsDecimal(fromStr)
    requires toStr == "" || IsDecimal(toStr)
    requires Connected(rpcUrl, chain) ==> ScansWellFormed(chain, BuildConfigs(addresses, fromStr, toStr, hexToAddress))
    ensures r == Err(RpcUrlNotSet) <==> rpcUrl == ""
    ensures r == Err(DialFailed) <==> rpcUrl != "" && !chain.dial(rpcUrl)
    ensures r.Ok? <==> Connected(rpcUrl, chain)
    ensures r.Ok? ==> exists tagged :: IsInterleaving(tagged, Outputs(chain, Jobs(BuildConfigs(addresses, fromStr, toStr, hexToAddress))))
                                    && AllWellFormed(Items(tagged))
                                    && r.value == ProcessEvents(Items(tagged))
    ensures r.Ok? && addresses == [] ==> r.value == ([], [])
  {
    BatchScanEvents(BuildConfigs(addresses, fromStr, toStr, hexToAddress), rpcUrl, chain, schedule)
  }

  /** The block arguments after the contract, with an absent one read as an empty string. */
  function ArgOrEmpty(args: seq<string>, i: nat): string
  {
    if i < |args| then args[i] else ""
  }

  /**
   * The config `ScanTransferEvents` scans: `args[0]` is the contract, then
   * optional from and to blocks. It is the config `ScanMultipleContracts`
   * builds for that one address, an absent block argument standing for an
   * empty bound.
   */
  function ArgsConfig(args: seq<string>, hexToAddress: string -> Address): (c: Config)
    requires |args| >= 1
    requires |args| > 1 ==> IsDecimal(args[1])
    requires |args| > 2 ==> IsDecimal(args[2])
    ensures c.contractAddress == hexToAddress(args[0])
    ensures [c] == BuildConfigs([args[0]], ArgOrEmpty(args, 1), ArgOrEmpty(args, 2), hexToAddress)
  {
    Config(hexToAddress(args[0]), [TransferType, ApprovalType],
           if |args| > 1 then Some(DecimalValue(args[1])) else Some(0),
           if |args| > 2 then Some(DecimalValue(args[2])) else None)
  }

  /**
   * `ScanTransferEvents`: a missing address argument is reported before the
   * RPC URL is looked at; then one Transfer and one Approval scanner.
   */
  function ScanTransferEvents(args: seq<string>, hexToAddress: string -> Address,
                              rpcUrl: string, chain: Chain, schedule: seq<nat>): (r: ScanResult)
    requires |args| >= 1 && Connected(rpcUrl, chain) ==> ArgsAccepted(args, hexToAddress, chain)
    ensures r == Err(UsageError) <==> |args| == 0
    ensures r == Err(RpcUrlNotSet) <==> |args| >= 1 && rpcUrl == ""
    ensures r == Err(DialFailed) <==> |args| >= 1 && rpcUrl != "" && !chain.dial(rpcUrl)
    ensures r.Ok? <==> |args| >= 1 && Connected(rpcUrl, chain)
  {
    if |args| < 1 then Err(UsageError)
    else if rpcUrl == "" then Err(RpcUrlNotSet)
    else if !chain.dial(rpcUrl) then Err(DialFailed)
    else
      var c := ArgsConfig(args, hexToAddress);
      var outs := [ScanJob(chain, Job(c.contractAddress, TransferType, c.fromBlock, c.toBlock)),
                   ScanJob(chain, Job(c.contractAddress, ApprovalType, c.fromBlock, c.toBlock))];
      OneConfigOutputs(chain, c);
      Ok(Collect(outs, schedule))
  }

  /**
   * What the success path of `ScanTransferEvents` needs: block arguments
   * `SetString` accepts and logs the decoders can index.
   */
  predicate ArgsAccepted(args: seq<string>, hexToAddress: string -> Address, chain: Chain) {
    && |args| >= 1
    && (|args| > 1 ==> IsDecimal(args[1]))
    && (|args| > 2 ==> IsDecimal(args[2]))
    && ScansWellFormed(chain, [ArgsConfig(args, hexToAddress)])
  }

  lemma OneConfigOutputs(chain: Chain, c: Config)
    requires c.eventTypes == [TransferType, ApprovalType]
    ensures Outputs(chain, Jobs([c])) == [ScanJob(chain, Job(c.contractAddress, TransferType, c.fromBlock, c.toBlock)),
                                          ScanJob(chain, Job(c.contractAddress, ApprovalType, c.fromBlock, c.toBlock))]
  {
    assert [c][..0] == [];
    assert Jobs([c]) == JobsFor(c, c.eventTypes);
  }

  /** Given an address, `ScanTransferEvents` is a batch scan of the one config its arguments describe. */
  lemma ScanTransferEventsIsOneConfigBatch(args: seq<string>, hexToAddress: string -> Address,
                                           rpcUrl: string, chain: Chain, schedule: seq<nat>)
    requires |args| >= 1
    requires |args| > 1 ==> IsDecimal(args[1])
    requires |args| > 2 ==> IsDecimal(args[2])
    requires Connected(rpcUrl, chain) ==> ScansWellFormed(chain, [ArgsConfig(args, hexToAddress)])
    ensures ScanTransferEvents(args, hexToAddress, rpcUrl, chain, schedule)
         == BatchScanEvents([ArgsConfig(args, hexToAddress)], rpcUrl, chain, schedule)
  {
    OneConfigOutputs(chain, ArgsConfig(args, hexToAddress));
  }

  /**
   * The single-contract entry point and the multi-contract one agree: given
   * an address, `ScanTransferEvents` returns what `ScanMultipleContracts`
   * returns for that one address and the same block arguments.
   */
  lemma ScanTransferEventsIsScanMultipleContracts(args: seq<string>, hexToAddress: string -> Address,
                                                  rpcUrl: string, chain: Chain, schedule: seq<nat>)
    requires |args| >= 1
    requires |args| > 1 ==> IsDecimal(args[1])
    requires |args| > 2 ==> IsDecimal(args[2])
    requires Connected(rpcUrl, chain) ==> ScansWellFormed(chain, [ArgsConfig(args, hexToAddress)])
    ensures ScanTransferEvents(args, hexToAddress, rpcUrl, chain, schedule)
         == ScanMultipleContracts([args[0]], ArgOrEmpty(args, 1), ArgOrEmpty(args, 2), hexToAddress, rpcUrl, chain, schedule)
  {
    ScanTransferEventsIsOneConfigBatch(args, hexToAddress, rpcUrl, chain, schedule);
  }
}
