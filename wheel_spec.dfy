/**
 * The Wheel strategy's path-level state machine, stated as functions.
 *
 * One trading path is a row of daily spot prices, in cents, grouped in
 * periods of 21 trading days. In period j the first trading day is
 * day1 = 21*j and day1 + 20 is the maturity day of every option written in
 * that period. While lots of shares are held, covered calls are written on
 * them (at most one per lot and period); while no lot is held, or when the
 * covered-call deadline passes without any call, a cash-secured put is
 * written. At maturity exercised calls sell their lot and an assigned put
 * buys a new one.
 *
 * All money amounts and prices are integer cents.
 */
module WheelSpec {

  /** Trading days in one period. */
  const DaysPerPeriod: int := 21

  datatype OptionKind = Call | Put

  /**
   * The numerical collaborators of the engine, left abstract:
   * callStrike(spot) is the call strike rounded to the cent for that spot,
   * putStrike(spot) the put strike, and premium(kind, spot, strike, days)
   * the Black-Scholes premium, rounded to the cent, of an option with
   * `days` trading days to maturity.
   */
  datatype Market = Market(
    callStrike: int -> int,
    putStrike: int -> int,
    premium: (OptionKind, int, int, int) -> int)

  /**
   * The run-time settings of the engine after setup: contract size, the
   * normalised covered-call deadline, the fallback flag, the minimum put
   * strike (cents, may be fractional) and the initial cash.
   */
  datatype Settings = Settings(
    contractSize: int,
    deadline: int,
    writePutsIfNoCalls: bool,
    minPrice: real,
    initialMoney: int)

  predicate ValidSettings(s: Settings)
  {
    && s.contractSize > 0
    && 1 <= s.deadline <= DaysPerPeriod
    && s.minPrice >= 1.0
    && s.initialMoney >= 0
  }

  /** Everything one path depends on: settings, market and the path's price row. */
  datatype Env = Env(settings: Settings, market: Market, prices: seq<int>)

  /**
   * A valid path: valid settings, positive prices, and a positive call
   * strike at every price of the row (a strike of 0 marks "no call" on a lot).
   */
  ghost predicate ValidEnv(e: Env)
  {
    && ValidSettings(e.settings)
    && (forall d :: 0 <= d < |e.prices| ==> e.prices[d] > 0)
    && forall spot :: spot in e.prices ==> e.market.callStrike(spot) > 0
  }

  /** The engine's minimum tradable premium: one cent. */
  function TradablePremium(raw: int): (p: int)
    ensures p >= 1 && p >= raw
    ensures raw >= 1 ==> p == raw
    ensures raw < 1 ==> p == 1
  {
    if raw < 1 then 1 else raw
  }

  /** Maturity (settlement) day of the period that starts on day1. */
  function Maturity(day1: int): int
  {
    day1 + DaysPerPeriod - 1
  }

  // ---------------------------------------------------------------- calls

  function CallStrikeOn(e: Env, l: int): int
    requires 0 <= l < |e.prices|
  {
    e.market.callStrike(e.prices[l])
  }

  function CallPremiumOn(e: Env, l: int, m: int): (c: int)
    requires 0 <= l < |e.prices|
    ensures c >= 1
  {
    TradablePremium(e.market.premium(Call, e.prices[l], CallStrikeOn(e, l), m - l))
  }

  /** The acceptance rule: strike plus premium collected exceeds the lot's purchase price. */
  predicate CallCovers(e: Env, l: int, m: int, cost: int)
    requires 0 <= l < |e.prices|
  {
    CallStrikeOn(e, l) + CallPremiumOn(e, l, m) > cost
  }

  /**
   * The first day in [start, end) on which a call on a lot bought at `cost`
   * passes the acceptance rule, or `end` if there is none.
   */
  function FirstCoveringDay(e: Env, m: int, cost: int, start: int, end: int): (d: int)
    requires 0 <= start <= end <= |e.prices|
    decreases end - start
    ensures start <= d <= end
    ensures d < end ==> CallCovers(e, d, m, cost)
    ensures forall l :: start <= l < d ==> !CallCovers(e, l, m, cost)
  {
    if end == start then start
    else
      var d := FirstCoveringDay(e, m, cost, start, end - 1);
      if d < end - 1 then d
      else if CallCovers(e, end - 1, m, cost) then end - 1
      else end
  }

  /**
   * The day after the last day on which calls may be written in the period
   * starting on day1: the deadline cuts the scan, and it never reaches the
   * maturity day itself.
   */
  function CallWindowEnd(s: Settings, day1: int): (end: int)
    requires ValidSettings(s)
    ensures day1 < end <= Maturity(day1)
    ensures end - day1 == s.deadline || (s.deadline >= DaysPerPeriod - 1 && end == Maturity(day1))
  {
    day1 + (if s.deadline < DaysPerPeriod - 1 then s.deadline else DaysPerPeriod - 1)
  }

  /** The lot bought at `cost` receives a call among the days [day1, end). */
  predicate CoveredBy(e: Env, day1: int, cost: int, end: int)
    requires 0 <= day1 <= end <= |e.prices|
  {
    FirstCoveringDay(e, Maturity(day1), cost, day1, end) < end
  }

  /** The call strike the lot bought at `cost` holds after days [day1, end), 0 if none. */
  function StrikeBy(e: Env, day1: int, cost: int, end: int): int
    requires 0 <= day1 <= end <= |e.prices|
  {
    var d := FirstCoveringDay(e, Maturity(day1), cost, day1, end);
    if d < end then CallStrikeOn(e, d) else 0
  }

  /** The premium collected for the lot bought at `cost` over days [day1, end), 0 if none. */
  function PremiumBy(e: Env, day1: int, cost: int, end: int): int
    requires 0 <= day1 <= end <= |e.prices|
  {
    var d := FirstCoveringDay(e, Maturity(day1), cost, day1, end);
    if d < end then CallPremiumOn(e, d, Maturity(day1)) else 0
  }

  /** Number of the first k lots (given by their purchase prices) that receive a call over [day1, end). */
  function OpenedAmong(e: Env, day1: int, costs: seq<int>, k: nat, end: int): (r: nat)
    requires 0 <= day1 <= end <= |e.prices| && k <= |costs|
    ensures r <= k
  {
    if k == 0 then 0
    else OpenedAmong(e, day1, costs, k - 1, end) + (if CoveredBy(e, day1, costs[k - 1], end) then 1 else 0)
  }

  /** Premium collected per share on the first k lots over [day1, end). */
  function IncomeAmong(e: Env, day1: int, costs: seq<int>, k: nat, end: int): (r: int)
    requires 0 <= day1 <= end <= |e.prices| && k <= |costs|
    ensures r >= 0
  {
    if k == 0 then 0
    else IncomeAmong(e, day1, costs, k - 1, end) + PremiumBy(e, day1, costs[k - 1], end)
  }

  /**
   * The strike a lot holds after one day's offer: the call it already has,
   * else the day's strike when strike + premium exceeds its purchase price.
   */
  function Offered(held: int, cost: int, strike: int, premium: int): int
  {
    if held > 0 then held else if strike + premium > cost then strike else held
  }

  /** Number of the first k lots that take the day's offer. */
  function Takers(xc: seq<int>, lots: seq<int>, strike: int, premium: int, k: nat): (r: nat)
    requires k <= |xc| && k <= |lots|
    ensures r <= k
  {
    if k == 0 then 0
    else Takers(xc, lots, strike, premium, k - 1)
         + (if xc[k - 1] <= 0 && strike + premium > lots[k - 1] then 1 else 0)
  }

  /** The strikes the lots hold once the days [day1, end) have been scanned. */
  function StrikesBy(e: Env, day1: int, lots: seq<int>, end: int): (xc: seq<int>)
    requires 0 <= day1 <= end <= |e.prices|
    ensures |xc| == |lots|
  {
    seq(|lots|, k requires 0 <= k < |lots| => StrikeBy(e, day1, lots[k], end))
  }

  /** The strikes the lots hold at the end of the call scan of the period starting on day1. */
  function CallStrikes(e: Env, day1: int, lots: seq<int>): (xc: seq<int>)
    requires ValidSettings(e.settings) && 0 <= day1 && day1 + DaysPerPeriod <= |e.prices|
    ensures |xc| == |lots|
  {
    StrikesBy(e, day1, lots, CallWindowEnd(e.settings, day1))
  }

  // ---------------------------------------------------------------- puts

  /** Day of the put: the first day, or the day before the deadline on the fallback. */
  function PutDay(s: Settings, day1: int, fallback: bool): (d: int)
    requires ValidSettings(s)
    requires fallback ==> s.deadline < DaysPerPeriod - 1
    ensures day1 <= d < Maturity(day1)
    ensures !fallback ==> d == day1
    ensures fallback ==> d == CallWindowEnd(s, day1) - 1
  {
    if fallback then day1 + s.deadline - 1 else day1
  }

  function PutStrikeOn(e: Env, d: int): int
    requires 0 <= d < |e.prices|
  {
    e.market.putStrike(e.prices[d])
  }

  function PutPremiumOn(e: Env, d: int, m: int): (p: int)
    requires 0 <= d < |e.prices|
    ensures p >= 1
  {
    TradablePremium(e.market.premium(Put, e.prices[d], PutStrikeOn(e, d), m - d))
  }

  /** A put is written only if its strike is at least the minimum price. */
  predicate PutAllowed(e: Env, d: int)
    requires 0 <= d < |e.prices|
    ensures PutAllowed(e, d) && ValidSettings(e.settings) ==> PutStrikeOn(e, d) > 0
  {
    PutStrikeOn(e, d) as real >= e.settings.minPrice
  }

  // ---------------------------------------------------------------- settlement

  /** A call with this strike (0: no call) is exercised against the spot at maturity. */
  predicate CallExercised(strike: int, spot: int)
    ensures strike <= 0 ==> !CallExercised(strike, spot)
    ensures strike > 0 ==> (CallExercised(strike, spot) <==> strike <= spot)
  {
    0 < strike <= spot
  }

  /** The lots that stay open after settling the calls `xc` against `spot`, in order. */
  function Kept(lots: seq<int>, xc: seq<int>, spot: int): (r: seq<int>)
    requires |xc| == |lots|
    ensures |r| + ExercisedCount(xc, spot) == |lots|
    ensures forall x :: x in r ==> x in lots
  {
    if lots == [] then []
    else
      var n := |lots| - 1;
      Kept(lots[..n], xc[..n], spot) + (if CallExercised(xc[n], spot) then [] else [lots[n]])
  }

  /** The lots sold by exercised calls, in order. */
  function Sold(lots: seq<int>, xc: seq<int>, spot: int): (r: seq<int>)
    requires |xc| == |lots|
  {
    if lots == [] then []
    else
      var n := |lots| - 1;
      Sold(lots[..n], xc[..n], spot) + (if CallExercised(xc[n], spot) then [lots[n]] else [])
  }

  /** Number of exercised calls. */
  function ExercisedCount(xc: seq<int>, spot: int): nat
  {
    if xc == [] then 0
    else ExercisedCount(xc[..|xc| - 1], spot) + (if CallExercised(xc[|xc| - 1], spot) then 1 else 0)
  }

  /** Cash per share received from the exercised calls. */
  function CallProceeds(xc: seq<int>, spot: int): (r: int)
    ensures r >= ExercisedCount(xc, spot)
  {
    if xc == [] then 0
    else CallProceeds(xc[..|xc| - 1], spot) + (if CallExercised(xc[|xc| - 1], spot) then xc[|xc| - 1] else 0)
  }

  /** The purchase prices with the lots sold by exercised calls set to 0. */
  function Cleared(lots: seq<int>, xc: seq<int>, spot: int): (r: seq<int>)
    requires |xc| == |lots|
    ensures |r| == |lots|
  {
    seq(|lots|, i requires 0 <= i < |lots| => if CallExercised(xc[i], spot) then 0 else lots[i])
  }

  /** The positive entries of s, in order: how the engine drops the cleared lots. */
  function Positives(s: seq<int>): (r: seq<int>)
    ensures |r| <= |s|
    ensures forall x :: x in r ==> x in s && x > 0
    ensures forall x :: x > 0 ==> multiset(r)[x] == multiset(s)[x]
  {
    if s == [] then []
    else
      var n := |s| - 1;
      assert s == s[..n] + [s[n]];
      Positives(s[..n]) + (if s[n] > 0 then [s[n]] else [])
  }

  /** Number of lots that hold a call strike. */
  function Written(xc: seq<int>): nat
  {
    if xc == [] then 0
    else Written(xc[..|xc| - 1]) + (if xc[|xc| - 1] > 0 then 1 else 0)
  }

  // ---------------------------------------------------------------- one period

  /**
   * The state of one path between periods: cash and shares held, the open
   * lots (each given by its purchase price) and the path's counters.
   */
  datatype PathState = PathState(
    cash: int,
    shares: int,
    lots: seq<int>,
    missed: int,
    callsOpened: int,
    callsExercised: int,
    putsOpened: int,
    putsExercised: int,
    moneySpent: int)

  /** The state a path starts from: the initial money, nothing held, nothing counted. */
  function InitialState(s: Settings): (st: PathState)
    requires ValidSettings(s)
    ensures Consistent(s, st)
    ensures st.lots == [] && st.cash == st.moneySpent == s.initialMoney
  {
    PathState(s.initialMoney, 0, [], 0, 0, 0, 0, 0, s.initialMoney)
  }

  /** The fallback put of period day1: the flag is set, the deadline cuts the scan and no call was accepted. */
  predicate Fallback(e: Env, day1: int, lots: seq<int>)
    requires ValidSettings(e.settings) && 0 <= day1 && day1 + DaysPerPeriod <= |e.prices|
    ensures Fallback(e, day1, lots) ==>
              |lots| > 0 && CallWindowEnd(e.settings, day1) - day1 == e.settings.deadline < Maturity(day1) - day1
  {
    && |lots| > 0
    && e.settings.writePutsIfNoCalls
    && e.settings.deadline < DaysPerPeriod - 1
    && OpenedAmong(e, day1, lots, |lots|, CallWindowEnd(e.settings, day1)) == 0
  }

  /** Whether a put is written in period day1 and on which day. */
  predicate PutWritten(e: Env, day1: int, lots: seq<int>)
    requires ValidSettings(e.settings) && 0 <= day1 && day1 + DaysPerPeriod <= |e.prices|
    ensures |lots| == 0 ==> (PutWritten(e, day1, lots) <==> PutAllowed(e, day1))
    ensures |lots| > 0 && PutWritten(e, day1, lots) ==> Fallback(e, day1, lots)
    ensures PutWritten(e, day1, lots) ==> PutStrikeOn(e, PutDay(e.settings, day1, Fallback(e, day1, lots))) > 0
  {
    var fallback := Fallback(e, day1, lots);
    (|lots| == 0 || fallback) && PutAllowed(e, PutDay(e.settings, day1, fallback))
  }

  /** Number of covered calls written in period day1 while `lots` are held. */
  function Accepted(e: Env, day1: int, lots: seq<int>): (r: nat)
    requires ValidSettings(e.settings) && 0 <= day1 && day1 + DaysPerPeriod <= |e.prices|
    ensures r <= |lots|
  {
    OpenedAmong(e, day1, lots, |lots|, CallWindowEnd(e.settings, day1))
  }

  /** Call premium collected per share in period day1 while `lots` are held. */
  function CallIncome(e: Env, day1: int, lots: seq<int>): (r: int)
    requires ValidSettings(e.settings) && 0 <= day1 && day1 + DaysPerPeriod <= |e.prices|
    ensures r >= 0
  {
    IncomeAmong(e, day1, lots, |lots|, CallWindowEnd(e.settings, day1))
  }

  /** Strike of the put considered in period day1. */
  function PutStrike(e: Env, day1: int, lots: seq<int>): int
    requires ValidSettings(e.settings) && 0 <= day1 && day1 + DaysPerPeriod <= |e.prices|
  {
    PutStrikeOn(e, PutDay(e.settings, day1, Fallback(e, day1, lots)))
  }

  /** Put premium collected per share in period day1, 0 if no put is written. */
  function PutIncome(e: Env, day1: int, lots: seq<int>): (r: int)
    requires ValidSettings(e.settings) && 0 <= day1 && day1 + DaysPerPeriod <= |e.prices|
    ensures r >= 0
    ensures r > 0 <==> PutWritten(e, day1, lots)
  {
    if PutWritten(e, day1, lots)
    then PutPremiumOn(e, PutDay(e.settings, day1, Fallback(e, day1, lots)), Maturity(day1))
    else 0
  }

  /** Period j of the path, from the state at its start to the state at its end. */
  function Period(e: Env, j: int, st: PathState): (st': PathState)
    requires ValidSettings(e.settings) && 0 <= j && (j + 1) * 21 <= |e.prices|
    ensures |st'.lots| <= |st.lots| + 1
    ensures 0 <= st'.callsOpened - st.callsOpened <= |st.lots|
    ensures 0 <= st'.putsOpened - st.putsOpened <= 1
    ensures st'.moneySpent >= st.moneySpent
  {
    var n := e.settings.contractSize;
    var day1 := j * 21;
    var spot := e.prices[Maturity(day1)];
    // positions opened
    var accepted := Accepted(e, day1, st.lots);
    var written := PutWritten(e, day1, st.lots);
    var xc := CallStrikes(e, day1, st.lots);
    var xp := PutStrike(e, day1, st.lots);
    // settlement of the calls
    var called := accepted > 0;
    var lots1 := if called then Kept(st.lots, xc, spot) else st.lots;
    var exercised := if called then ExercisedCount(xc, spot) else 0;
    var proceeds := if called then CallProceeds(xc, spot) else 0;
    var cash1 := st.cash + n * CallIncome(e, day1, st.lots) + n * PutIncome(e, day1, st.lots) + n * proceeds;
    // settlement of the put
    var putAssigned := written && xp >= spot;
    var cash2 := if putAssigned then cash1 - n * xp else cash1;
    var shortfall := if putAssigned && cash2 < 0 then -cash2 else 0;
    PathState(
      cash := cash2 + shortfall,
      shares := st.shares - n * exercised + (if putAssigned then n else 0),
      lots := if putAssigned then lots1 + [xp] else lots1,
      missed := st.missed + (if !called && !written then 1 else 0),
      callsOpened := st.callsOpened + accepted,
      callsExercised := st.callsExercised + exercised,
      putsOpened := st.putsOpened + (if written then 1 else 0),
      putsExercised := st.putsExercised + (if putAssigned then 1 else 0),
      moneySpent := st.moneySpent + shortfall)
  }

  /**
   * What every state of a path satisfies: no negative cash, n shares per
   * open lot, every lot bought at no less than the minimum price, no more
   * exercises than written options, and money spent never below the
   * initial money.
   */
  predicate Consistent(s: Settings, st: PathState)
  {
    && st.cash >= 0
    && st.shares == s.contractSize * |st.lots|
    && LotsAbove(st.lots, s.minPrice)
    && 0 <= st.missed
    && 0 <= st.callsExercised <= st.callsOpened
    && 0 <= st.putsExercised <= st.putsOpened
    && st.moneySpent >= s.initialMoney
  }

  predicate LotsAbove(lots: seq<int>, minPrice: real)
  {
    forall i :: 0 <= i < |lots| ==> lots[i] as real >= minPrice
  }

  /** Whether a call is written or a put is written in period j. */
  predicate Active(e: Env, j: int, st: PathState)
    requires ValidSettings(e.settings) && 0 <= j && (j + 1) * 21 <= |e.prices|
  {
    var day1 := j * 21;
    Accepted(e, day1, st.lots) > 0 || PutWritten(e, day1, st.lots)
  }

  /** `states` is the beginning of the path: the initial state, then each period applied to the one before. */
  ghost predicate IsPath(e: Env, states: seq<PathState>)
    requires ValidSettings(e.settings)
  {
    && |states| >= 1
    && (|states| - 1) * 21 <= |e.prices|
    && states[0] == InitialState(e.settings)
    && forall j :: 0 <= j < |states| - 1 ==> Steps(e, states, j)
  }

  /** State j + 1 of `states` is period j applied to state j. */
  ghost predicate Steps(e: Env, states: seq<PathState>, j: int)
    requires ValidSettings(e.settings) && 0 <= j < |states| - 1 && (j + 1) * 21 <= |e.prices|
  {
    states[j + 1] == Period(e, j, states[j])
  }

  /** Number of the first k periods of the path `states` in which an option is written. */
  ghost function ActivePeriods(e: Env, states: seq<PathState>, k: nat): (r: nat)
    requires ValidSettings(e.settings) && IsPath(e, states) && k < |states|
    ensures r <= k
  {
    if k == 0 then 0
    else ActivePeriods(e, states, k - 1) + (if Active(e, k - 1, states[k - 1]) then 1 else 0)
  }
}
