# FRED on Monad: position sizing and agent loop, in Dafny

FRED is an autonomous trading agent. On every tick it scans markets for
opportunities, sizes each one with the Kelly criterion, and records the
trades it decides to execute. This project models two parts of it and
proves their properties.

- **Strategy** (`strategy.dfy`) is the strategy engine's `analyze`. It is a
  pure function over exact reals. Let p be the opportunity's confidence,
  q = 1 - p, and b = edge / 0.02 the win/loss ratio against a hard-wired 2%
  stop loss. The Kelly fraction is (p*b - q)/b, or 0 when b <= 0. The
  staked fraction is half of it, capped at `max_position_pct`. A negative
  staked fraction is rejected as "negative expected value" and carries no
  sizing. Otherwise the decision is sized, and its action is execute exactly
  when the edge reaches `min_edge_pct`.
- **Agent** (`agent.dfy`) models the market scanner's `last_scan` and the
  agent's state: the running flag, the positions and the append-only trade
  history. These are classes whose methods update fields in place. `Tick`
  scans, then sizes each opportunity in scan order against the balance and
  appends one record per executed opportunity. `Run` is a loop over the
  outcomes of successive ticks. A tick that raised is caught and leaves
  everything but the scan time alone. `Stop` clears the running flag, and
  `GetStatus` reports the snapshot.
- **Sequences** (`sequences.dfy`) is a small generic helper. It
  concatenates what a function picks from each element of a sequence, and
  proves that picking at most one value per element keeps exactly the picked
  values, in order.

The chain client (balance, address, transactions) and the clock are not
modelled. The balance, the address and each clock reading are parameters.
The source's `scan` has no venue integration yet and always returns an empty
list. The model's `Scan` returns `feed`, standing for what an integration
would report; `feed == []` is the source exactly.

Where the code and its descriptions differ, the model follows the code:

- Edge 5% at confidence 30% is executed, not skipped: b = 2.5, Kelly 0.02,
  staked 0.01, and the edge equals the floor. The unit test at
  tests/test_fred_monad.py:186-200 expects skip. The lemma
  `FloorEdgeLowConfidenceExecutes` proves execute. The bet's expected value
  p*b - q = 0.05 is positive, so the test's "negative EV" premise does not
  hold.
- Execute does not imply a positive stake. The code rejects only a staked
  fraction below 0, so a fraction of exactly 0 is sized and, at or above the
  floor, executed with position size 0 even on a positive portfolio. This
  happens when the Kelly fraction is exactly 0 (edge 5% at confidence 2/7,
  where p*b equals q; lemma `ZeroKellyAtFloorExecutes`) and whenever
  `max_position_pct` is 0 (lemma `ZeroCapSizesNothing`).
- A zero or negative balance is not rejected either: the decision can be
  execute with position size 0 (or negative). Only the cap lemma needs a
  non-negative balance.
- The stop loss (0.02) and the Kelly multiplier (0.5) are constants, not
  configuration.

## Model

| member | source | states |
|---|---|---|
| Strategy.KellyFraction | fred_monad.py:171-176 | the fraction is 0 when b <= 0 (no division); for b > 0 it is positive exactly when the bet's expected net payoff p*b - q is positive and negative exactly when it is negative |
| Strategy.Analyze | fred_monad.py:159-193 | a sized decision carries the Kelly fraction of (confidence, edge/0.02), a staked fraction in [0, max_position_pct] that is at most half-Kelly and equals either half-Kelly or the cap, position size = portfolio × staked fraction, the opportunity's edge and confidence, and action execute iff edge >= min_edge_pct; the negative-expected-value rejection happens iff the cap or the Kelly fraction is negative |
| Strategy.PositionSizeBounded | fred_monad.py:179-184 | on a non-negative portfolio a sized decision's position is between 0 and portfolio × max_position_pct |
| Strategy.ExecuteOnlyAboveFloor | fred_monad.py:186-193 | execute implies edge >= min_edge_pct, and an edge below the floor is never executed whatever the confidence |
| Strategy.NegativeExpectedValueExactly | fred_monad.py:172-182 | with a non-negative cap, the rejection happens iff the edge is positive and p*b < q |
| Strategy.NonPositiveEdgeSizesNothing | fred_monad.py:174-187 | an edge <= 0 (b <= 0) takes the sized branch with Kelly, staked fraction and size all 0, and its action is the floor check alone |
| Strategy.KellyIsStationary | fred_monad.py:163-169 | for 0 < p < 1 and b > 0 the Kelly fraction lies in the domain of the expected log growth p·log(1+b·f) + q·log(1−f), and that growth's slope is 0 there |
| Strategy.KellyMaximisesGrowth | fred_monad.py:163-169 | the expected log growth's slope is positive below the Kelly fraction and negative above it, so for 0 < p < 1 the growth peaks at the Kelly fraction |
| Strategy.DefaultConfigExample | tests/test_fred_monad.py:322-345 | default config, edge 0.10, confidence 0.65: b = 5, Kelly 0.58, staked 0.1, execute, size 10 on 100 and 100 on 1000 |
| Strategy.HighEdgeIsCapped | tests/test_fred_monad.py:165-183 | edge 1.0, confidence 0.95, portfolio 1000: Kelly 0.949, staked fraction capped at 0.1, size 100 |
| Strategy.LowEdgeIsSkipped | tests/test_fred_monad.py:142-156 | edge 0.02, confidence 0.65: skip, although Kelly is 0.3 and a size of 10 is reported |
| Strategy.FloorEdgeLowConfidenceExecutes | fred_monad.py:172-193 | edge 0.05, confidence 0.30: b = 2.5, Kelly 0.02, staked 0.01, execute with size 1 on 100 |
| Strategy.ZeroKellyAtFloorExecutes | fred_monad.py:176-187 | edge 0.05, confidence 2/7: b = 2.5 and p*b = q, so Kelly is exactly 0, the fraction 0 is not rejected, and the decision is execute with size 0 on a positive portfolio of 100 |
| Strategy.ZeroCapSizesNothing | fred_monad.py:179-187 | with max_position_pct = 0 every sized decision has fraction and size 0, and is still execute exactly when the edge reaches the floor |
| Agent.TradesOfInScanOrder | fred_monad.py:252-268 | a tick's records correspond, one to one and in increasing scan position, to exactly the opportunities whose analysis is execute; there are at most as many records as opportunities |
| Agent.TradesOfWithinRisk | fred_monad.py:252-268 | every record has edge >= min_edge_pct, the tick's time, the pair and direction of a scanned opportunity, and on a non-negative balance a size within [0, balance × max_position_pct] |
| Agent.SingleGoodOpportunityRecorded | tests/test_fred_monad.py:285-311 | one MON/USDC long opportunity with edge 0.10 and confidence 0.65 on balance 100 yields exactly one record, of size 10 and edge 0.10 |
| Agent.RunTradesAppend | fred_monad.py:230-236 | the records of two batches of ticks run in sequence are those of the first followed by those of the second |
| Agent.FailedTicksRecordNothing | fred_monad.py:230-236 | ticks that all raised record nothing |
| Agent.ScanTimeUnsetOnlyIfEveryScanRaised | fred_monad.py:129-146 | after a run the scan time is unset iff it was unset before and every tick's scan raised |
| Agent.MarketScanner.constructor | fred_monad.py:127-129 | a new scanner has no scan time |
| Agent.MarketScanner.Scan | fred_monad.py:131-146 | the scan time becomes the current time and the found opportunities are returned |
| Agent.Fred.constructor | fred_monad.py:211-219 | a new agent is not running, has no positions and no history, a fresh scanner with no scan time, and the default configuration when none is given |
| Agent.Fred.Tick | fred_monad.py:238-268 | the scan time is set; running and positions are unchanged; the new history is the old one followed by the records of the executed opportunities in scan order (nothing for an empty scan) |
| Agent.Fred.Run | fred_monad.py:221-236 | the agent is running afterwards whatever ticks raised; positions are unchanged; the history is the old one followed by the records of the completed ticks; the scan time is that of the last tick whose scan completed |
| Agent.Fred.Stop | fred_monad.py:270-273 | the agent is not running and nothing else changes |
| Agent.Fred.GetStatus | fred_monad.py:275-284 | reports the running flag, the number of positions, the number of recorded trades, the scan time, and the address and balance given |
| Agent.EmptyTickStatus | fred_monad.py:242-246 | a new agent ticking on an empty scan reports no trades, no positions, not running, and a scan time |
| Agent.StopTwiceStatus | tests/test_fred_monad.py:269-273 | stopping twice leaves the agent stopped with its positions and recorded trades as they were |

## Left out

- The chain client (RPC connection, key loading, `send_transaction`, gas price, `get_balance`) is not part of this model. The balance and the address are parameters. Trade execution itself is a TODO in the source and is not modelled.
- Timing and concurrency: `asyncio` scheduling, the sleep of `scan_interval_sec` between ticks, `KeyboardInterrupt` in `main`, and a `stop` arriving from another task while `run` loops.
- Logging, the command-line `main` with its JSON printing, reading `monad_rpc` and `private_key` from the environment, and the unused `max_drawdown_pct` and `use_llm_analysis` fields.
- Floating point: every quantity is an exact real. The rounding of binary floats and the decimal-to-float conversion of the portfolio value are not captured.
- Clock readings: each tick takes one time for its scan and for all of its records. The source reads the clock separately for each record. Times are integers, not ISO strings.
- Fred.Run: it models only ticks that complete, ticks whose scan raises, and ticks whose balance read raises; an exception raised while analysing malformed opportunity data is not modelled. The initial balance read before the loop, which only feeds a log line, is left out; if it raised, `run` would propagate the error with the agent already running. The loop runs over a finite list of tick outcomes instead of until a concurrent stop.
- Fred.Tick: the analysis is the model's `Analyze` and cannot be replaced by a stub as the unit test at tests/test_fred_monad.py:285-311 does. That test's scenario is proved with the real analysis (`SingleGoodOpportunityRecorded`).
- Positions: the source never adds a position, so the model gives them the record type and only proves that nothing changes them.
- The unit test at tests/test_fred_monad.py:92-106 checks its own data (target versus entry price), not anything the code computes.
- Idempotence of the sizing holds by construction: `Analyze` is a Dafny function.
