/**
 * The Simulation object: its configuration properties, each guarded by a
 * setter that refuses out-of-range values, and `Run`, which normalises the
 * set-up values and then drives the trading engine over every path,
 * recording each path's cash, shares and counters in the result arrays.
 *
 * Amounts of money are integer cents, so the initial stock price and the
 * initial money are held in cents; the minimum-price setting is a fraction
 * of the initial stock price.
 */
module WheelMc {
  import opened WheelSpec
  import opened WheelEngine

  /** Result of a setter: the value is stored, or refused with the setter's message. */
  datatype Outcome = Pass | Fail(message: string)

  datatype Option<T> = None | Some(value: T)

  /**
   * What a run leaves behind: the price table it was given, the cash and
   * share tables (one row per path, one column per period) and six
   * counters with one entry per path.
   */
  datatype RunResults = RunResults(
    stockPrices: seq<seq<int>>,
    money: array2<int>,
    stock: array2<int>,
    missed: seq<int>,
    nopencalls: seq<int>,
    nopenputs: seq<int>,
    nexercisedcalls: seq<int>,
    nexercisedputs: seq<int>,
    moneySpent: seq<int>)

  const PositiveIntegerExpected := "An integer greater than zero is expected!"
  const NonNegativeNumberExpected := "A number greater than or equal to zero is expected!"
  const PositiveNumberExpected := "A number greater than zero is expected!"
  const UnitIntervalExpected := "A number in the [0,1[ interval is expected!"
  const NonNegativeIntegerExpected := "An integer greater than or equal to zero is expected!"

  /** The configuration properties of a simulation. */
  datatype Parameters = Parameters(
    n: int,
    npaths: int,
    nperiods: int,
    inimoney: int,
    s0: real,
    minprice: real,
    volatility: real,
    r: real,
    callStrikeFactor: real,
    putStrikeFactor: real,
    callsDeadline: int,
    writePutsIfNoCalls: bool,
    saveLog: bool)

  /** What the setters admit. */
  predicate ValidParameters(p: Parameters)
  {
    && p.n > 0
    && p.npaths > 0
    && p.nperiods > 0
    && p.inimoney >= 0
    && p.s0 > 0.0
    && 0.0 <= p.minprice < 1.0
    && p.volatility > 0.0
    && p.r >= 0.0
    && p.callsDeadline >= 0
  }

  /**
   * The covered-call deadline used by the engine: a deadline outside
   * 1 .. 21 days means "calls may be written until maturity", i.e. 21.
   */
  function NormalisedDeadline(d: int): (r: int)
    ensures 1 <= r <= DaysPerPeriod
    ensures 1 <= d <= DaysPerPeriod ==> r == d
    ensures (d < 1 || d > DaysPerPeriod) ==> r == DaysPerPeriod
  {
    if d < 1 || d > DaysPerPeriod then DaysPerPeriod else d
  }

  /**
   * The minimum put strike in cents: the given fraction of the initial stock
   * price, but never less than one cent.
   */
  function MinimumPutStrike(s0: real, fraction: real): (mp: real)
    ensures mp >= 1.0 && mp >= s0 * fraction
    ensures mp == 1.0 || mp == s0 * fraction
  {
    var candidate := s0 * fraction;
    if candidate < 1.0 then 1.0 else candidate
  }

  /** The engine's settings for a configuration: normalised deadline and minimum put strike. */
  function EngineSettings(p: Parameters): (s: Settings)
    requires ValidParameters(p)
    ensures ValidSettings(s)
    ensures s.contractSize == p.n && s.initialMoney == p.inimoney && s.writePutsIfNoCalls == p.writePutsIfNoCalls
    ensures s.deadline == NormalisedDeadline(p.callsDeadline)
    ensures s.minPrice == MinimumPutStrike(p.s0, p.minprice)
  {
    Settings(p.n, NormalisedDeadline(p.callsDeadline), p.writePutsIfNoCalls,
             MinimumPutStrike(p.s0, p.minprice), p.inimoney)
  }

  /**
   * The results of a run, as the path loop leaves them: path i of the
   * engine, from the initial state over row i of the prices, is `paths[i]`;
   * money[i, j] and stock[i, j] are its cash and shares at the end of
   * period j, and the counters are those of its final state.
   */
  ghost predicate Recorded(settings: Settings, market: Market, nperiods: nat, res: RunResults,
                           paths: seq<seq<PathState>>)
    requires ValidSettings(settings)
    reads res.money, res.stock
  {
    && |paths| == |res.stockPrices| == res.money.Length0 == res.stock.Length0
    && res.money.Length1 == res.stock.Length1 == nperiods
    && |res.missed| == |res.nopencalls| == |res.nopenputs| == |paths|
    && |res.nexercisedcalls| == |res.nexercisedputs| == |res.moneySpent| == |paths|
    && forall i :: 0 <= i < |paths| ==>
         && |paths[i]| == nperiods + 1
         && IsPath(Env(settings, market, res.stockPrices[i]), paths[i])
         && RowRecorded(res.money, res.stock, i, paths[i])
         && res.missed[i] == paths[i][nperiods].missed
         && res.nopencalls[i] == paths[i][nperiods].callsOpened
         && res.nopenputs[i] == paths[i][nperiods].putsOpened
         && res.nexercisedcalls[i] == paths[i][nperiods].callsExercised
         && res.nexercisedputs[i] == paths[i][nperiods].putsExercised
         && res.moneySpent[i] == paths[i][nperiods].moneySpent
  }

  /** Row i of the tables holds the cash and shares of `states` after each period. */
  ghost predicate RowRecorded(money: array2<int>, stock: array2<int>, i: int, states: seq<PathState>)
    reads money, stock
  {
    && 0 <= i < money.Length0 == stock.Length0
    && money.Length1 == stock.Length1 == |states| - 1
    && forall j :: 0 <= j < |states| - 1 ==> money[i, j] == states[j + 1].cash && stock[i, j] == states[j + 1].shares
  }

  /**
   * The path loop of a run: every path starts from the initial state and
   * goes through all its periods. Row i of the two tables holds the cash and
   * the shares of path i at the end of each period; the counters are those
   * of the path's final state.
   */
  method SimulatePaths(settings: Settings, market: Market, prices: seq<seq<int>>, npaths: nat, nperiods: nat)
    returns (res: RunResults, ghost paths: seq<seq<PathState>>)
    requires ValidSettings(settings)
    requires |prices| == npaths
    requires forall i :: 0 <= i < npaths ==> |prices[i]| == nperiods * 21
    requires forall i, d :: 0 <= i < npaths && 0 <= d < |prices[i]| ==> prices[i][d] > 0
    requires forall i, spot :: 0 <= i < npaths && spot in prices[i] ==> market.callStrike(spot) > 0
    ensures res.stockPrices == prices && fresh(res.money) && fresh(res.stock)
    ensures Recorded(settings, market, nperiods, res, paths)
  {
    var money := new int[npaths, nperiods];
    var stock := new int[npaths, nperiods];
    var missed, nopencalls, nopenputs, nexercisedcalls, nexercisedputs, moneySpent;
    missed, nopencalls, nopenputs, nexercisedcalls, nexercisedputs, moneySpent := [], [], [], [], [], [];
    paths := [];
    var i := 0;
    while i < npaths
      invariant 0 <= i <= npaths && |paths| == i
      invariant |missed| == |nopencalls| == |nopenputs| == |nexercisedcalls| == |nexercisedputs| == |moneySpent| == i
      invariant forall k :: 0 <= k < i ==>
                  && |paths[k]| == nperiods + 1
                  && IsPath(Env(settings, market, prices[k]), paths[k])
                  && RowRecorded(money, stock, k, paths[k])
                  && missed[k] == paths[k][nperiods].missed
                  && nopencalls[k] == paths[k][nperiods].callsOpened
                  && nopenputs[k] == paths[k][nperiods].putsOpened
                  && nexercisedcalls[k] == paths[k][nperiods].callsExercised
                  && nexercisedputs[k] == paths[k][nperiods].putsExercised
                  && moneySpent[k] == paths[k][nperiods].moneySpent
    {
      var final;
      ghost var states;
      final, states := SimulatePath(Env(settings, market, prices[i]), nperiods, money, stock, i);
      missed := missed + [final.missed];
      nopencalls := nopencalls + [final.callsOpened];
      nopenputs := nopenputs + [final.putsOpened];
      nexercisedcalls := nexercisedcalls + [final.callsExercised];
      nexercisedputs := nexercisedputs + [final.putsExercised];
      moneySpent := moneySpent + [final.moneySpent];
      paths := paths + [states];
      i := i + 1;
    }
    res := RunResults(prices, money, stock, missed, nopencalls, nopenputs, nexercisedcalls, nexercisedputs,
                      moneySpent);
  }

  class Simulation {
    var n: int
    var npaths: int
    var nperiods: int
    var inimoney: int
    var s0: real
    var minprice: real
    var volatility: real
    var r: real
    var callStrikeFactor: real
    var putStrikeFactor: real
    var callsDeadline: int
    var writePutsIfNoCalls: bool
    var saveLog: bool

    // results of the last run; None until a run has completed
    var results: Option<RunResults>

    function Params(): Parameters
      reads this`n, this`npaths, this`nperiods, this`inimoney, this`s0, this`minprice, this`volatility, this`r,
            this`callStrikeFactor, this`putStrikeFactor, this`callsDeadline, this`writePutsIfNoCalls, this`saveLog
    {
      Parameters(n, npaths, nperiods, inimoney, s0, minprice, volatility, r,
                 callStrikeFactor, putStrikeFactor, callsDeadline, writePutsIfNoCalls, saveLog)
    }

    predicate Valid()
      reads this
    {
      ValidParameters(Params())
    }

    /** The defaults: 100 options, 100000 paths of 120 periods, spot 100.00, no money, no results. */
    constructor ()
      ensures Valid()
      ensures Params() == Parameters(100, 100000, 120, 0, 10000.0, 0.0, 0.2, 0.01, 0.05, 0.05, 0, false, false)
      ensures results == None
    {
      minprice := 0.0;
      nperiods := 120;
      callsDeadline := 0;
      npaths := 100000;
      volatility := 0.2;
      n := 100;
      s0 := 10000.0;
      inimoney := 0;
      r := 0.01;
      callStrikeFactor := 0.05;
      putStrikeFactor := 0.05;
      results := None;
      writePutsIfNoCalls := false;
      saveLog := false;
    }

    method SetNumberOfOptions(x: int) returns (o: Outcome)
      modifies this
      ensures results == old(results)
      ensures x > 0 ==> o == Pass && Params() == old(Params()).(n := x)
      ensures x <= 0 ==> o == Fail(PositiveIntegerExpected) && Params() == old(Params())
      ensures old(Valid()) ==> Valid()
    {
      if x > 0 {
        n := x;
        o := Pass;
      } else {
        o := Fail(PositiveIntegerExpected);
      }
    }

    method SetNumberOfTradingPaths(x: int) returns (o: Outcome)
      modifies this
      ensures results == old(results)
      ensures x > 0 ==> o == Pass && Params() == old(Params()).(npaths := x)
      ensures x <= 0 ==> o == Fail(PositiveIntegerExpected) && Params() == old(Params())
      ensures old(Valid()) ==> Valid()
    {
      if x > 0 {
        npaths := x;
        o := Pass;
      } else {
        o := Fail(PositiveIntegerExpected);
      }
    }

    method SetNumberOfPeriods(x: int) returns (o: Outcome)
      modifies this
      ensures results == old(results)
      ensures x > 0 ==> o == Pass && Params() == old(Params()).(nperiods := x)
      ensures x <= 0 ==> o == Fail(PositiveIntegerExpected) && Params() == old(Params())
      ensures old(Valid()) ==> Valid()
    {
      if x > 0 {
        nperiods := x;
        o := Pass;
      } else {
        o := Fail(PositiveIntegerExpected);
      }
    }

    method SetInitialMoney(x: int) returns (o: Outcome)
      modifies this
      ensures results == old(results)
      ensures x >= 0 ==> o == Pass && Params() == old(Params()).(inimoney := x)
      ensures x < 0 ==> o == Fail(NonNegativeNumberExpected) && Params() == old(Params())
      ensures old(Valid()) ==> Valid()
    {
      if x >= 0 {
        inimoney := x;
        o := Pass;
      } else {
        o := Fail(NonNegativeNumberExpected);
      }
    }

    method SetInitialStockPrice(x: real) returns (o: Outcome)
      modifies this
      ensures results == old(results)
      ensures x > 0.0 ==> o == Pass && Params() == old(Params()).(s0 := x)
      ensures x <= 0.0 ==> o == Fail(PositiveNumberExpected) && Params() == old(Params())
      ensures old(Valid()) ==> Valid()
    {
      if x > 0.0 {
        s0 := x;
        o := Pass;
      } else {
        o := Fail(PositiveNumberExpected);
      }
    }

    method SetMinimumPrice(x: real) returns (o: Outcome)
      modifies this
      ensures results == old(results)
      ensures 0.0 <= x < 1.0 ==> o == Pass && Params() == old(Params()).(minprice := x)
      ensures !(0.0 <= x < 1.0) ==> o == Fail(UnitIntervalExpected) && Params() == old(Params())
      ensures old(Valid()) ==> Valid()
    {
      if x >= 0.0 && x < 1.0 {
        minprice := x;
        o := Pass;
      } else {
        o := Fail(UnitIntervalExpected);
      }
    }

    method SetVolatility(x: real) returns (o: Outcome)
      modifies this
      ensures results == old(results)
      ensures x > 0.0 ==> o == Pass && Params() == old(Params()).(volatility := x)
      ensures x <= 0.0 ==> o == Fail(PositiveNumberExpected) && Params() == old(Params())
      ensures old(Valid()) ==> Valid()
    {
      if x > 0.0 {
        volatility := x;
        o := Pass;
      } else {
        o := Fail(PositiveNumberExpected);
      }
    }

    method SetRiskFreeRate(x: real) returns (o: Outcome)
      modifies this
      ensures results == old(results)
      ensures x >= 0.0 ==> o == Pass && Params() == old(Params()).(r := x)
      ensures x < 0.0 ==> o == Fail(NonNegativeNumberExpected) && Params() == old(Params())
      ensures old(Valid()) ==> Valid()
    {
      if x >= 0.0 {
        r := x;
        o := Pass;
      } else {
        o := Fail(NonNegativeNumberExpected);
      }
    }

    /** Any factor is accepted: positive puts the call strike out of the money, negative in the money. */
    method SetCallStrikeFactor(x: real)
      modifies this
      ensures results == old(results)
      ensures Params() == old(Params()).(callStrikeFactor := x)
      ensures old(Valid()) ==> Valid()
    {
      callStrikeFactor := x;
    }

    method SetPutStrikeFactor(x: real)
      modifies this
      ensures results == old(results)
      ensures Params() == old(Params()).(putStrikeFactor := x)
      ensures old(Valid()) ==> Valid()
    {
      putStrikeFactor := x;
    }

    method SetCoveredCallsDeadline(x: int) returns (o: Outcome)
      modifies this
      ensures results == old(results)
      ensures x >= 0 ==> o == Pass && Params() == old(Params()).(callsDeadline := x)
      ensures x < 0 ==> o == Fail(NonNegativeIntegerExpected) && Params() == old(Params())
      ensures old(Valid()) ==> Valid()
    {
      if x >= 0 {
        callsDeadline := x;
        o := Pass;
      } else {
        o := Fail(NonNegativeIntegerExpected);
      }
    }

    method SetWritePutsIfNoCalls(x: bool)
      modifies this
      ensures results == old(results)
      ensures Params() == old(Params()).(writePutsIfNoCalls := x)
      ensures old(Valid()) ==> Valid()
    {
      writePutsIfNoCalls := x;
    }

    method SetSaveLog(x: bool)
      modifies this
      ensures results == old(results)
      ensures Params() == old(Params()).(saveLog := x)
      ensures old(Valid()) ==> Valid()
    {
      saveLog := x;
    }

    /**
     * Runs the Wheel strategy on every path. The price rows are given (one
     * row of nperiods * 21 positive daily prices per path), as is the market
     * that prices options and rounds strikes; its call strike is positive at
     * every price of every row. The covered-call deadline field
     * is normalised first; the engine's settings are EngineSettings of the
     * normalised configuration. `paths[i]` is the sequence of states of path
     * i: money[i, j] and stock[i, j] are the cash and shares at the end of
     * period j, and the counters are those of the path's final state.
     */
    method Run(prices: seq<seq<int>>, market: Market) returns (ghost paths: seq<seq<PathState>>)
      requires Valid()
      requires |prices| == npaths
      requires forall i :: 0 <= i < npaths ==> |prices[i]| == nperiods * 21
      requires forall i, d :: 0 <= i < npaths && 0 <= d < |prices[i]| ==> prices[i][d] > 0
      requires forall i, spot :: 0 <= i < npaths && spot in prices[i] ==> market.callStrike(spot) > 0
      modifies this
      ensures Valid()
      ensures Params() == old(Params()).(callsDeadline := NormalisedDeadline(old(callsDeadline)))
      ensures results.Some? && results.value.stockPrices == prices
      ensures fresh(results.value.money) && fresh(results.value.stock)
      ensures Recorded(EngineSettings(Params()), market, nperiods, results.value, paths)
    {
      callsDeadline := NormalisedDeadline(callsDeadline);
      var res;
      res, paths := SimulatePaths(EngineSettings(Params()), market, prices, npaths, nperiods);
      results := Some(res);
    }
  }
}
