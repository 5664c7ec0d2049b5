/** The agent's state machine: the market scanner's last scan time, and the
    agent with its running flag, its positions and its append-only trade
    history, driven tick by tick.

    The chain client is not modelled: the balance it would report and the
    agent's address are parameters, and so is every clock reading. */
module Agent {
  import opened Strategy
  import opened Sequences

  datatype Option<T> = None | Some(value: T)

  /** What a tick records for an executed opportunity. */
  datatype TradeRecord = TradeRecord(timestamp: Timestamp, pair: string, direction: string,
                                     size: real, edge: real)

  /** The status snapshot the agent reports. */
  datatype Status = Status(running: bool, address: Option<string>, balance: real,
                           positions: nat, totalTrades: nat, lastScan: Option<Timestamp>)

  /** The record of an opportunity whose analysis d was sized: its pair and
      direction, the analysis' position size and edge. */
  function RecordOf(opp: Opportunity, d: Decision, now: Timestamp): (r: TradeRecord)
    requires d.Sized?
  {
    TradeRecord(now, opp.pair, opp.direction, d.positionSize, d.edge)
  }

  /** What one opportunity adds to the history: its record if it is executed, nothing otherwise. */
  function TradeOf(config: Config, opp: Opportunity, balance: real, now: Timestamp): (added: seq<TradeRecord>)
  {
    var d := Analyze(config, opp, balance);
    if d.Executes() then [RecordOf(opp, d, now)] else []
  }

  /** The records a tick appends for the scanned opportunities, in scan order. */
  function TradesOf(config: Config, opps: seq<Opportunity>, balance: real, now: Timestamp)
    : (trades: seq<TradeRecord>)
  {
    Collect(opp => TradeOf(config, opp, balance, now), opps)
  }

  /** A tick records exactly the executed opportunities, in scan order: idx
      lists, increasing, the positions of the opportunities whose analysis is
      execute, and record k is the record of opportunity idx[k]. */
  lemma TradesOfInScanOrder(config: Config, opps: seq<Opportunity>, balance: real, now: Timestamp)
    returns (idx: seq<nat>)
    ensures |idx| == |TradesOf(config, opps, balance, now)| <= |opps|
    ensures forall k :: 0 <= k < |idx| ==>
              idx[k] < |opps| && TradeOf(config, opps[idx[k]], balance, now) == [TradesOf(config, opps, balance, now)[k]]
    ensures Increasing(idx)
    ensures forall j :: 0 <= j < |opps| && Analyze(config, opps[j], balance).Executes() ==> j in idx
  {
    var pick := opp => TradeOf(config, opp, balance, now);
    idx := CollectSelects(pick, opps);
    IncreasingBelowBound(idx, |opps|);
    forall j | 0 <= j < |opps| && Analyze(config, opps[j], balance).Executes() ensures j in idx {
      assert pick(opps[j]) != [];
    }
  }

  /** Every record of a tick passed the edge floor, carries the tick's clock
      reading, the pair and direction of a scanned opportunity, and, on a
      non-negative balance, a size within the cap. */
  lemma TradesOfWithinRisk(config: Config, opps: seq<Opportunity>, balance: real, now: Timestamp)
    ensures forall r :: r in TradesOf(config, opps, balance, now) ==>
              r.edge >= config.minEdgePct && r.timestamp == now
              && (exists opp :: opp in opps && opp.pair == r.pair && opp.direction == r.direction)
              && (balance >= 0.0 ==> 0.0 <= r.size <= balance * config.maxPositionPct)
  {
    var trades := TradesOf(config, opps, balance, now);
    var idx := TradesOfInScanOrder(config, opps, balance, now);
    forall r | r in trades
      ensures r.edge >= config.minEdgePct && r.timestamp == now
      ensures exists opp :: opp in opps && opp.pair == r.pair && opp.direction == r.direction
      ensures balance >= 0.0 ==> 0.0 <= r.size <= balance * config.maxPositionPct
    {
      var k :| 0 <= k < |trades| && trades[k] == r;
      var opp := opps[idx[k]];
      assert TradeOf(config, opp, balance, now) == [r];
      ExecuteOnlyAboveFloor(config, opp, balance);
      if balance >= 0.0 {
        PositionSizeBounded(config, opp, balance);
      }
    }
  }

  /** Scanning the default configuration's worked example, a 10% edge at 65%
      confidence on a balance of 100, records exactly one trade of size 10. */
  lemma SingleGoodOpportunityRecorded(opp: Opportunity, now: Timestamp)
    requires opp.pair == "MON/USDC" && opp.direction == "long"
    requires opp.edgePct == 0.10 && opp.confidence == 0.65
    ensures TradesOf(DefaultConfig, [opp], 100.0, now)
            == [TradeRecord(now, "MON/USDC", "long", 10.0, 0.10)]
  {
    DefaultConfigExample(opp);
    var pick := o => TradeOf(DefaultConfig, o, 100.0, now);
    assert [opp][1..] == [];
    assert Collect(pick, [opp]) == pick(opp) + Collect(pick, []);
  }

  /** One iteration of the run loop, as seen from the outside. */
  datatype TickStep =
      /** The tick returned normally; the scanner reported feed, the client the balance. */
    | Completed(now: Timestamp, feed: seq<Opportunity>, balance: real)
      /** The scan raised before it recorded its time. */
    | ScanRaised
      /** The scan recorded its time and reported feed, then reading the balance raised. */
    | BalanceRaised(now: Timestamp, feed: seq<Opportunity>)

  /** The records a run appends, step by step; a step whose tick raised appends none. */
  function RunTrades(config: Config, steps: seq<TickStep>): (trades: seq<TradeRecord>)
  {
    if steps == [] then []
    else
      RunTrades(config, steps[..|steps| - 1])
      + match steps[|steps| - 1]
        case Completed(now, feed, balance) => TradesOf(config, feed, balance, now)
        case _ => []
  }

  /** The scanner's last scan time after a run started from prev: the time of
      the last step whose scan completed, or prev when none did. */
  function LastScanAfter(prev: Option<Timestamp>, steps: seq<TickStep>): (lastScan: Option<Timestamp>)
  {
    if steps == [] then prev
    else
      match steps[|steps| - 1]
      case Completed(now, _, _) => Some(now)
      case BalanceRaised(now, _) => Some(now)
      case ScanRaised => LastScanAfter(prev, steps[..|steps| - 1])
  }

  /** Running two batches of ticks one after the other records what one run of both records. */
  lemma {:induction false} RunTradesAppend(config: Config, first: seq<TickStep>, second: seq<TickStep>)
    ensures RunTrades(config, first + second) == RunTrades(config, first) + RunTrades(config, second)
  {
    if second == [] {
      assert first + second == first;
    } else {
      var init := second[..|second| - 1];
      assert (first + second)[..|first + second| - 1] == first + init;
      RunTradesAppend(config, first, init);
    }
  }

  /** A run whose every tick raised records nothing. */
  lemma {:induction false} FailedTicksRecordNothing(config: Config, steps: seq<TickStep>)
    requires forall i :: 0 <= i < |steps| ==> !steps[i].Completed?
    ensures RunTrades(config, steps) == []
  {
    if steps != [] {
      FailedTicksRecordNothing(config, steps[..|steps| - 1]);
    }
  }

  /** After a run the scan time is unset exactly when it was unset before and
      every tick's scan raised. */
  lemma {:induction false} ScanTimeUnsetOnlyIfEveryScanRaised(prev: Option<Timestamp>, steps: seq<TickStep>)
    ensures LastScanAfter(prev, steps).None?
            <==> prev.None? && forall i :: 0 <= i < |steps| ==> steps[i].ScanRaised?
  {
    if steps != [] {
      var init := steps[..|steps| - 1];
      ScanTimeUnsetOnlyIfEveryScanRaised(prev, init);
      assert forall i :: 0 <= i < |init| ==> init[i] == steps[i];
    }
  }

  /** The scanner: it remembers when it last scanned. */
  class MarketScanner {
    var lastScan: Option<Timestamp>

    /** A new scanner has never scanned. */
    constructor ()
      ensures lastScan == None
    {
      lastScan := None;
    }

    /** Scans at time now. The opportunities found are feed, what a venue
        integration would report; without one the source reports none. */
    method Scan(now: Timestamp, feed: seq<Opportunity>) returns (opportunities: seq<Opportunity>)
      modifies this
      ensures lastScan == Some(now)
      ensures opportunities == feed
    {
      lastScan := Some(now);
      opportunities := feed;
    }
  }

  /** The autonomous trading agent. */
  class Fred {
    const config: Config
    const scanner: MarketScanner
    var running: bool
    /** Open positions; nothing in the agent ever adds one. */
    var positions: seq<TradeRecord>
    /** Executed trades, oldest first; only ever appended to. */
    var tradeHistory: seq<TradeRecord>

    /** A new agent is stopped, has no positions and no history, and a fresh
        scanner that has not scanned; with no configuration it takes the default. */
    constructor (cfg: Option<Config>)
      ensures config == if cfg.Some? then cfg.value else DefaultConfig
      ensures !running && positions == [] && tradeHistory == []
      ensures fresh(scanner) && scanner.lastScan == None
    {
      config := if cfg.Some? then cfg.value else DefaultConfig;
      scanner := new MarketScanner();
      running := false;
      positions := [];
      tradeHistory := [];
    }

    /** One tick: scan at time now; if anything was found, size each
        opportunity against balance in scan order and record the executed
        ones. Positions and the running flag are untouched. */
    method Tick(now: Timestamp, feed: seq<Opportunity>, balance: real)
      modifies this, scanner
      ensures scanner.lastScan == Some(now)
      ensures running == old(running) && positions == old(positions)
      ensures tradeHistory == old(tradeHistory) + TradesOf(config, feed, balance, now)
    {
      var opportunities := scanner.Scan(now, feed);
      if opportunities == [] {
        return;
      }
      var portfolioValue := balance;
      for i := 0 to |opportunities|
        invariant scanner.lastScan == Some(now)
        invariant running == old(running) && positions == old(positions)
        invariant tradeHistory
                  == old(tradeHistory) + TradesOf(config, opportunities[..i], portfolioValue, now)
      {
        var opp := opportunities[i];
        var analysis := Analyze(config, opp, portfolioValue);
        if analysis.Executes() {
          tradeHistory := tradeHistory + [RecordOf(opp, analysis, now)];
        }
        assert opportunities[..i + 1] == opportunities[..i] + [opp];
        CollectSnoc(o => TradeOf(config, o, portfolioValue, now), opportunities[..i], opp);
      }
      assert opportunities[..|opportunities|] == opportunities;
    }

    /** The run loop, over the ticks that happen before it is stopped: it
        sets the agent running and no failing tick stops it or changes
        anything but the scan time. */
    method Run(steps: seq<TickStep>)
      modifies this, scanner
      ensures running
      ensures positions == old(positions)
      ensures tradeHistory == old(tradeHistory) + RunTrades(config, steps)
      ensures scanner.lastScan == LastScanAfter(old(scanner.lastScan), steps)
    {
      running := true;
      var i := 0;
      while running && i < |steps|
        invariant 0 <= i <= |steps| && running
        invariant positions == old(positions)
        invariant tradeHistory == old(tradeHistory) + RunTrades(config, steps[..i])
        invariant scanner.lastScan == LastScanAfter(old(scanner.lastScan), steps[..i])
        decreases |steps| - i
      {
        match steps[i] {
          case Completed(now, feed, balance) =>
            Tick(now, feed, balance);
          case ScanRaised =>
          case BalanceRaised(now, feed) =>
            var _ := scanner.Scan(now, feed);
        }
        assert steps[..i + 1][..i] == steps[..i];
        i := i + 1;
      }
      assert steps[..i] == steps;
    }

    /** Stops the agent; nothing else changes. */
    method Stop()
      modifies this`running
      ensures !running
    {
      running := false;
    }

    /** The status snapshot: the running flag, the number of positions and of
        recorded trades, and the last scan time; the client supplies the
        address and balance. */
    method GetStatus(address: Option<string>, balance: real) returns (status: Status)
      ensures status.running == running
      ensures status.positions == |positions| && status.totalTrades == |tradeHistory|
      ensures status.lastScan == scanner.lastScan
      ensures status.address == address && status.balance == balance
    {
      status := Status(running, address, balance, |positions|, |tradeHistory|, scanner.lastScan);
    }
  }

  /** A new agent that ticks once and finds nothing reports no trades, is not
      running, and has a scan time. */
  method EmptyTickStatus(now: Timestamp, balance: real) returns (status: Status)
    ensures !status.running && status.positions == 0 && status.totalTrades == 0
    ensures status.lastScan == Some(now)
  {
    var agent := new Fred(None);
    agent.Tick(now, [], balance);
    status := agent.GetStatus(None, balance);
  }

  /** Stopping is idempotent: a running agent stopped twice is stopped, with
      its history and positions as they were. */
  method StopTwiceStatus(feed: seq<Opportunity>, now: Timestamp, balance: real) returns (status: Status)
    ensures !status.running && status.positions == 0
    ensures status.totalTrades == |TradesOf(DefaultConfig, feed, balance, now)|
  {
    var agent := new Fred(None);
    agent.running := true;
    agent.Tick(now, feed, balance);
    agent.Stop();
    agent.Stop();
    status := agent.GetStatus(None, balance);
  }
}
