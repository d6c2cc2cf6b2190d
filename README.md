# Wheel strategy Monte Carlo simulator: the path state machine

This project models the trading engine of `Simulation.run` in `wheel_mc`. That engine plays the
Wheel options strategy over many simulated price paths:

- while shares are held, covered calls are written on the lots;
- while none are held, or when the covered-call deadline passes without any call, a cash-secured
  put is written;
- at the maturity day of each 21-day period, exercised calls sell their lot and an assigned put
  buys a new one.

The model is written in Dafny and verified. It is organised in four modules:

- `WheelSpec` (wheel_spec.dfy) states the engine as functions: one path is a row of daily prices,
  and `Period(e, j, st)` is the state after period j. The state covers cash, shares, the open lots
  (given by their purchase prices), and the counters of missed periods, opened and exercised calls
  and puts, and money spent. `IsPath` says that a sequence of states is a path: the initial
  state, then each period applied to the state before it.
- `WheelProofs` (wheel_proofs.dfy) proves the properties of that state machine. They cover the
  call acceptance rule, at most one call per lot, the settlement of calls as a partition of the
  lots, the put rules, and the invariants every period keeps:
  - cash never negative;
  - n shares per open lot;
  - lots bought at no less than the minimum price;
  - exercises never above openings;
  - money spent never below the initial money.

  It also proves that missed plus active periods equals the number of periods.
- `WheelEngine` (wheel_engine.dfy) is the imperative engine. It follows the source loop by loop:
  days of the call scan, lots, settlement of the calls and of the put, periods of a path. Each
  method is proved to compute the state machine of `WheelSpec`.
- `WheelMc` (wheel_mc.dfy) is the `Simulation` class. Its configuration fields are guarded by
  setters that refuse out-of-range values with the source's messages. `Run` normalises the
  covered-call deadline, derives the minimum put strike and runs every path. It records each
  path's cash and shares per period in two tables, and its six counters per path.

Units: money and prices are integer cents, because the source rounds every price and strike to
two decimals. The initial stock price and the minimum price are `real`, since their product may
be a fractional number of cents. The Black-Scholes pricer and the two strike roundings are opaque
functions held in a `Market` value. The engine applies the one-cent floor to every premium. A
call strike must be positive at every price of the path's row, because a strike of 0 marks "no
call" on a lot.

The covered-call deadline counts days from the first day of the period. The scan stops on the
deadline day, and the latest possible scan day is day1 + 19. So a deadline of 20 and a deadline
of 21 both leave the whole window open, and only deadlines up to 19 can trigger the fallback put.
Every option is written on a day strictly before maturity, so its time to maturity is 1 to 20
trading days.

The risk-free-rate setter accepts any rate of zero or more (wheel_mc/wheel_mc.py:429). The
pydantic schema of the package asks for a strictly positive rate (wheel_mc/models.py:52). The
model follows the setter.

## Model

| member | source | states |
|---|---|---|
| WheelSpec.TradablePremium | wheel_mc/wheel_mc.py:122-123 | a premium below one cent becomes exactly one cent, and a premium of one cent or more is kept; so the result is at least one cent and never below the computed premium |
| WheelSpec.FirstCoveringDay | wheel_mc/wheel_mc.py:106-130 | the day on which a lot receives its call is the first scanned day on which strike plus premium exceeds its purchase price: the rule holds on that day and on no earlier day of the window; the end of the window means no call |
| WheelSpec.CallWindowEnd | wheel_mc/wheel_mc.py:106-114 | the call scan covers at least the first day and never reaches maturity; it stops on the deadline day, or runs to the day before maturity when the deadline is 20 or more |
| WheelSpec.PutDay | wheel_mc/wheel_mc.py:154-159 | an ordinary put is written on the first day of the period; the fallback put on day day1 + deadline - 1, which is the last day of the call scan; either way strictly before maturity |
| WheelSpec.CallProceeds | wheel_mc/wheel_mc.py:194-197 | the cash per share from exercised calls is at least one cent per exercised call |
| WheelSpec.Positives | wheel_mc/wheel_mc.py:211 | the filtered purchase-price list keeps every positive entry, as often as it occurs, and nothing else; it is no longer than the list |
| WheelSpec.PutAllowed | wheel_mc/wheel_mc.py:165 | a put passes the minimum-price test only with a strike of at least the minimum price, hence a positive strike |
| WheelSpec.CallExercised | wheel_mc/wheel_mc.py:196 | a lot holding no call (strike 0) is never exercised; a call is exercised exactly when its strike is at most the spot at maturity |
| WheelSpec.Kept | wheel_mc/wheel_mc.py:194-211 | the lots left after settling the calls: kept lots plus exercised calls equal the lots held, and every kept lot is one of the lots held |
| WheelSpec.InitialState | wheel_mc/wheel_mc.py:46-54 | a path starts with the initial money in cash and as money spent, no lot and no share, and satisfies every path invariant |
| WheelSpec.Fallback | wheel_mc/wheel_mc.py:106-114 | the fallback put can fire only while lots are held and when the deadline cut the call scan on the deadline day, before maturity |
| WheelSpec.PutWritten | wheel_mc/wheel_mc.py:154-165 | with no lot held a put is written exactly when the first day's strike passes the minimum-price test; with lots held only on the fallback; a written put has a positive strike |
| WheelSpec.Period | wheel_mc/wheel_mc.py:86-240 | one period of a path: it opens at most one call per lot held and at most one put, buys at most one lot, and never lowers the money spent |
| WheelSpec.PutIncome | wheel_mc/wheel_mc.py:154-172 | the put premium credited in a period is positive exactly when a put is written, and zero otherwise |
| WheelProofs.FirstCoveringDayNext | wheel_mc/wheel_mc.py:106-130 | scanning one more day leaves an existing call in place, and otherwise gives the lot that day's call exactly when it passes the acceptance rule |
| WheelProofs.FirstCoveringDayStable | wheel_mc/wheel_mc.py:126-127 | once a lot holds a call, no later day of the scan changes it: at most one call per lot and period |
| WheelProofs.CallAcceptanceRule | wheel_mc/wheel_mc.py:116-130 | a lot holds a positive strike exactly when some day of the window passes the acceptance rule; its strike and premium are those of the first such day, strike plus premium exceeds the purchase price, and the call has 1 to 20 days to maturity; a lot without a call holds strike 0 and brought no premium |
| WheelProofs.ScanStep | wheel_mc/wheel_mc.py:125-130 | one more day of the scan for one lot: the lot keeps its call, or takes the day's strike and premium when they cover its cost, or stays without a call |
| WheelProofs.LotStep | wheel_mc/wheel_mc.py:125-132 | one lot on one day: it takes the day's call exactly when it had none and the rule holds, and the call count and the premium income of the lots so far grow by exactly that call |
| WheelProofs.OfferIsScanStep | wheel_mc/wheel_mc.py:125-130 | the strike each lot holds after the engine's offer of one day equals the scan's strike with that day included |
| WheelProofs.CoveredAtStrike | wheel_mc/wheel_mc.py:129 | since the premium is at least a cent, a lot bought at or below the day's call strike always passes the acceptance rule |
| WheelProofs.OfferIsScanDay | wheel_mc/wheel_mc.py:116-138 | the engine's offer of one day to every lot is one more day of the scan: new strikes, calls opened that day, and premium collected that day (one premium per taker, n times for the shares of a contract) |
| WheelProofs.TakerStep | wheel_mc/wheel_mc.py:126-131 | one lot's part of a day's offer: it adds the day's premium to the scan's income exactly when it takes the offer |
| WheelProofs.LotTakes | wheel_mc/wheel_mc.py:126-132 | a lot takes a day's offer exactly when the scan opens its call that day, and then it adds that day's premium |
| WheelProofs.TakersAreNewCalls | wheel_mc/wheel_mc.py:125-132 | the number of lots taking a day's offer is the number of calls the scan opens that day |
| WheelProofs.TakersBringPremium | wheel_mc/wheel_mc.py:129-131 | the premium credited for a day, one premium per taker, is the increase of the scan's premium income on that day |
| WheelProofs.ScanSettled | wheel_mc/wheel_mc.py:107-108 | when every lot has its call by day l, the rest of the scan changes no strike, no count and no income |
| WheelProofs.SettledScan | wheel_mc/wheel_mc.py:107-108 | stopping the scan early because no lot is left without a call gives the same strikes, call count and income as scanning the whole window; every lot has a call |
| WheelProofs.EmptyScan | wheel_mc/wheel_mc.py:103 | before the first scanned day no lot holds a call and nothing is collected |
| WheelProofs.WrittenCounts | wheel_mc/wheel_mc.py:125-132 | the number of lots holding a positive strike equals the number of calls the scan opened |
| WheelProofs.AcceptedAreWritten | wheel_mc/wheel_mc.py:125-132 | the period's strike list holds exactly as many calls as the period's call counter grows by |
| WheelProofs.ClearedThenKept | wheel_mc/wheel_mc.py:209-211 | clearing the purchase price of each sold lot and then dropping non-positive entries leaves exactly the unexercised lots, in order |
| WheelProofs.SoldCount | wheel_mc/wheel_mc.py:194-199 | one lot is sold per exercised call |
| WheelProofs.SettlementPartition | wheel_mc/wheel_mc.py:194-211 | settlement splits the lots into kept and sold without losing or adding any (as multisets) |
| WheelProofs.ExercisedAtMostWritten | wheel_mc/wheel_mc.py:196-199 | only a lot holding a call can be exercised: exercises never exceed calls written |
| WheelProofs.NoExerciseKeepsAll | wheel_mc/wheel_mc.py:194-211 | when no call is exercised every lot stays, unchanged and in order |
| WheelProofs.KeptLotsAboveMinimum | wheel_mc/wheel_mc.py:209-211 | lots kept after settlement still all cost at least the minimum price |
| WheelProofs.PeriodKeepsShares | wheel_mc/wheel_mc.py:194-220 | shares stay at n per open lot across a period: each exercise removes n shares and one lot, an assignment adds n shares and one lot |
| WheelProofs.PeriodSpending | wheel_mc/wheel_mc.py:214-234 | money spent never decreases in a period, and when it grows the cash has been reset to 0 |
| WheelProofs.PeriodKeepsCash | wheel_mc/wheel_mc.py:214-234 | cash at the end of a period is never negative when it was not at the start |
| WheelProofs.PeriodKeepsConsistent | wheel_mc/wheel_mc.py:86-240 | a period keeps all path invariants: cash non-negative, n shares per lot, lots at least the minimum price, exercises at most openings, money spent at least the initial money |
| WheelProofs.PathConsistent | wheel_mc/wheel_mc.py:79-263 | every state of every path, from the initial one, satisfies all path invariants |
| WheelProofs.PeriodMissed | wheel_mc/wheel_mc.py:239-240 | the missed counter grows by one in a period exactly when neither a call nor a put is written |
| WheelProofs.MissedPlusActive | wheel_mc/wheel_mc.py:86-240 | after k periods, missed periods plus periods in which an option was written equal k |
| WheelProofs.NoCallAndPutInOnePeriod | wheel_mc/wheel_mc.py:102-154 | no period both accepts a call and writes a put |
| WheelProofs.PutRule | wheel_mc/wheel_mc.py:106-165 | a put is written only with its strike at least the minimum price, with 1 to 20 days to maturity, on the first day when no lot is held, or else on the fallback on day day1 + deadline - 1; the fallback fires exactly when lots are held, the flag is set, the scan stopped at a deadline below 20 and no call was accepted |
| WheelProofs.IncomeCoversCalls | wheel_mc/wheel_mc.py:122-132 | every accepted call brings at least one cent per share |
| WheelProofs.PeriodCounters | wheel_mc/wheel_mc.py:125-240 | per period: calls opened at most the lots held, calls exercised at most calls opened, puts exercised at most puts opened, at most one put, and missed grows exactly when nothing is written |
| WheelProofs.ExtendPath | wheel_mc/wheel_mc.py:86-263 | a path extended by one more period is still a path, and its new last state keeps the invariants |
| WheelEngine.WriteCoveredCalls | wheel_mc/wheel_mc.py:102-138 | the engine's call scan yields the period's call strikes, credits n times the period's call income, counts the accepted calls, updates the written and missed flags, and flags the fallback put exactly when the flag is set, the deadline is below 20 and no call is written |
| WheelEngine.ScanCalls | wheel_mc/wheel_mc.py:106-120 | the day loop stops on maturity, when every lot holds a call, or on the deadline day; strikes, cash and counters are then those of the scan of the days before the stop |
| WheelEngine.ScanDay | wheel_mc/wheel_mc.py:116-138 | one day of the scan moves strikes, cash and the call counter from the scan without that day to the scan with it; calls never decrease |
| WheelEngine.OfferCallOnDay | wheel_mc/wheel_mc.py:125-138 | each lot without a call takes the day's strike exactly when strike plus premium exceeds its purchase price; calls and cash grow by one call and n times the premium per taker |
| WheelEngine.SettleCalls | wheel_mc/wheel_mc.py:194-212 | settling the calls leaves exactly the kept lots, credits n times the strike of each exercised call, removes n shares and counts one exercise per exercised call |
| WheelEngine.OpenPositions | wheel_mc/wheel_mc.py:101-177 | opening a period writes the period's calls and at most its put, credits the call and put premiums for n shares, counts calls and puts, and sets missed exactly when nothing is written |
| WheelEngine.WritePut | wheel_mc/wheel_mc.py:154-177 | the put is written exactly when its strike is at least the minimum price; then it credits n times the premium and counts one put |
| WheelEngine.SettlePut | wheel_mc/wheel_mc.py:214-236 | an assigned put (strike at least spot) buys n shares at the strike and opens a lot at it; a negative balance is moved to money spent and cash reset to 0; an unassigned put changes nothing |
| WheelEngine.RunPeriod | wheel_mc/wheel_mc.py:86-240 | one period of the engine computes exactly the period of the state machine, and leaves both written flags clear |
| WheelEngine.NextPeriod | wheel_mc/wheel_mc.py:86-240 | one period of the engine extends the path so far by the period's state, which keeps the invariants |
| WheelEngine.SimulatePath | wheel_mc/wheel_mc.py:79-263 | the engine's pass over one path goes through the states of a path of the state machine; the path's row holds the cash and shares after each period, and other rows stay as they were |
| WheelMc.NormalisedDeadline | wheel_mc/wheel_mc.py:65-66 | a deadline outside 1 to 21 becomes 21, one inside is kept |
| WheelMc.MinimumPutStrike | wheel_mc/wheel_mc.py:60-63 | the minimum put strike is s0 times the minimum-price fraction, but at least one cent |
| WheelMc.EngineSettings | wheel_mc/wheel_mc.py:46-66 | the set-up gives the engine valid settings: the contract size, the initial money, the flag, the normalised deadline and the minimum put strike of the configuration |
| WheelMc.SimulatePaths | wheel_mc/wheel_mc.py:79-263 | every path is run from the initial state over its own price row; its cash and shares after each period are in its table row, and its six counters are those of its final state |
| WheelMc.Simulation.constructor | wheel_mc/wheel_mc.py:7-36 | the defaults: 100 options, 100000 paths of 120 periods, spot 100.00, no money, rate 0.01, volatility 0.2, factors 0.05, deadline 0, no fallback, no log, no results |
| WheelMc.Simulation.SetNumberOfOptions | wheel_mc/wheel_mc.py:351-355 | a positive count is stored; anything else is refused with the source's message and nothing changes |
| WheelMc.Simulation.SetNumberOfTradingPaths | wheel_mc/wheel_mc.py:362-366 | a positive count is stored; anything else is refused and nothing changes |
| WheelMc.Simulation.SetNumberOfPeriods | wheel_mc/wheel_mc.py:373-377 | a positive count is stored; anything else is refused and nothing changes |
| WheelMc.Simulation.SetInitialMoney | wheel_mc/wheel_mc.py:384-388 | a non-negative amount is stored; a negative one is refused and nothing changes |
| WheelMc.Simulation.SetInitialStockPrice | wheel_mc/wheel_mc.py:395-399 | a positive price is stored; anything else is refused and nothing changes |
| WheelMc.Simulation.SetMinimumPrice | wheel_mc/wheel_mc.py:406-410 | a fraction in [0, 1) is stored; anything else is refused and nothing changes |
| WheelMc.Simulation.SetVolatility | wheel_mc/wheel_mc.py:417-421 | a positive volatility is stored; anything else is refused and nothing changes |
| WheelMc.Simulation.SetRiskFreeRate | wheel_mc/wheel_mc.py:428-432 | a rate of zero or more is stored; a negative one is refused and nothing changes |
| WheelMc.Simulation.SetCallStrikeFactor | wheel_mc/wheel_mc.py:439-443 | any factor is stored, and only that field changes |
| WheelMc.Simulation.SetPutStrikeFactor | wheel_mc/wheel_mc.py:450-454 | any factor is stored, and only that field changes |
| WheelMc.Simulation.SetCoveredCallsDeadline | wheel_mc/wheel_mc.py:461-465 | a deadline of zero or more is stored; a negative one is refused and nothing changes |
| WheelMc.Simulation.SetWritePutsIfNoCalls | wheel_mc/wheel_mc.py:472-476 | the flag is stored, and only that field changes |
| WheelMc.Simulation.SetSaveLog | wheel_mc/wheel_mc.py:483-487 | the flag is stored, and only that field changes |
| WheelMc.Simulation.Run | wheel_mc/wheel_mc.py:46-263 | a run keeps the configuration valid and normalises the stored deadline; it records the given prices, fresh cash and share tables and the counters of every path, and each path is a path of the state machine under the normalised settings |

## Left out

- Price-path generation (wheel_mc/wheel_mc.py:55-59, 69-72) uses normal random draws and
  floating-point exp/log/cumsum. `Run` takes the price rows as a parameter instead: one row of
  positive prices in cents per path.
- The Black-Scholes pricer `__getoptionprice` (wheel_mc/wheel_mc.py:269-302) uses floating-point
  log, sqrt, exp and the normal CDF. It is the opaque `premium` function of `Market`, and it
  receives the days to maturity rather than days / 252 years. The strike roundings
  `round(s * (1 ± factor), 2)` are the opaque `callStrike` and `putStrike`. So volatility, rate
  and the two factors are stored and validated but do not reach the engine.
- Floating-point rounding of money: amounts are exact integer cents.
- Logging to `log.dat`, and the `save_log` flag's effect. This is file I/O with no effect on the
  results.
- The property getters (wheel_mc/wheel_mc.py:346-483, between the setters) and the read-only
  result properties (wheel_mc/wheel_mc.py:513-547). They only return fields.
- The `isinstance` type checks of the setters. Dafny's types already separate integers, reals
  and booleans. A Python `bool` passed where an `int` is expected is therefore not modelled, and
  neither are the "A number is expected!" and "A boolean value is expected!" refusals.
- WheelMc.Simulation.SetInitialMoney takes whole cents, whereas the source also accepts a
  fractional amount.
- WheelMc.Simulation.SetInitialStockPrice takes the price in cents rather than in dollars; the
  default 100.0 dollars is 10000.0 cents.
- WheelMc.Simulation.Run requires the call strike to be positive at every price of every row.
  With a call strike factor of about -0.5 or less, a low enough price rounds the source's strike
  to 0. The source then records the lot as still without a call while counting and crediting the
  call; a run on such a row is not modelled.
- WheelMc.Simulation.Run keeps the results of a run in one `results` field holding a
  `RunResults` value: the two tables and the six counter sequences. The source has nine
  separate attributes, allocated as numpy arrays before the path loop. Each counter sequence is
  built path by path and is equal, entry by entry, to the source's counter array.
- WheelEngine.SimulatePath writes each cell of the cash and share tables once per period, with
  the period's closing balance. The source first copies the previous period's balance into the
  cell and then updates it in place. Only the final value of each cell is modelled.
- WheelEngine.RunPeriod keeps the per-period variables `xc`, `xp`, `writeput` and `missed` local
  to one period. The source resets `missed` and `writeput` at the start of each period
  (wheel_mc/wheel_mc.py:87-88) and rebuilds `xc` before reading it. The flags `writtencall` and
  `writtenput` are reset per path (wheel_mc/wheel_mc.py:80), and `RunPeriod` proves that they
  are clear again at the end of every period.
- Path properties are stated over the sequence of states a path goes through (`IsPath`), not
  over a closed-form function of the period count.
- wheel_mc/models.py (pydantic schemas) is not part of this model, except for the risk-free-rate
  bound noted above.
