/**
 * The imperative engine: one trading path processed period by period, day
 * by day and lot by lot, as the simulation loop does, and proved to compute
 * the state machine of module WheelSpec.
 */
module WheelEngine {
  import opened WheelSpec
  import opened WheelProofs

  /**
   * The covered-call scan of the period starting on day1, while `lots` are
   * held. Days day1 .. maturity-1 are visited in order; the scan stops when
   * every lot holds a call or when the day offset reaches the deadline, and
   * in the second case flags the fallback put if no call has been written.
   * On each day one strike and one premium are computed, and every lot
   * without a call receives that strike if strike + premium exceeds its
   * purchase price; each acceptance credits premium * contract size.
   */
  method WriteCoveredCalls(e: Env, day1: int, lots: seq<int>,
                           money: int, nopencalls: int, writtencall: bool, missed: bool)
    returns (xc: seq<int>, money': int, nopencalls': int, writtencall': bool, missed': bool, writeput: bool)
    requires ValidEnv(e) && 0 <= day1 && day1 + DaysPerPeriod <= |e.prices|
    requires |lots| > 0
    ensures xc == CallStrikes(e, day1, lots)
    ensures money' == money + e.settings.contractSize * IncomeAmong(e, day1, lots, |lots|, CallWindowEnd(e.settings, day1))
    ensures nopencalls' == nopencalls + OpenedAmong(e, day1, lots, |lots|, CallWindowEnd(e.settings, day1))
    ensures writtencall' == (writtencall || OpenedAmong(e, day1, lots, |lots|, CallWindowEnd(e.settings, day1)) > 0)
    ensures missed' == (missed && OpenedAmong(e, day1, lots, |lots|, CallWindowEnd(e.settings, day1)) == 0)
    ensures writeput == (e.settings.writePutsIfNoCalls && e.settings.deadline < DaysPerPeriod - 1 && !writtencall')
  {
    var m := Maturity(day1);
    var l;
    l, xc, money', nopencalls', writtencall', missed' :=
      ScanCalls(e, day1, lots, money, nopencalls, writtencall, missed);
    writeput := false;
    if 0 !in xc {
      SettledScan(e, day1, lots, xc, l, CallWindowEnd(e.settings, day1));
    } else if l < m {
      // the deadline was reached with some lot still uncovered
      if e.settings.writePutsIfNoCalls && !writtencall' {
        writeput := true;
      }
    }
  }

  /**
   * The day loop of the covered-call scan: days day1, day1 + 1, ... are
   * scanned until every lot holds a call, the deadline day or maturity is
   * reached. Day l is where it stopped: the strikes, the income and the
   * counters are those of the scan of days [day1, l).
   */
  method ScanCalls(e: Env, day1: int, lots: seq<int>, money: int, nopencalls: int, writtencall: bool, missed: bool)
    returns (l: int, xc: seq<int>, money': int, nopencalls': int, writtencall': bool, missed': bool)
    requires ValidEnv(e) && 0 <= day1 && day1 + DaysPerPeriod <= |e.prices|
    ensures day1 <= l <= CallWindowEnd(e.settings, day1)
    ensures l == Maturity(day1) || 0 !in xc || l - day1 == e.settings.deadline
    ensures xc == StrikesBy(e, day1, lots, l)
    ensures money' == money + e.settings.contractSize * IncomeAmong(e, day1, lots, |lots|, l)
    ensures nopencalls' == nopencalls + OpenedAmong(e, day1, lots, |lots|, l)
    ensures writtencall' == (writtencall || OpenedAmong(e, day1, lots, |lots|, l) > 0)
    ensures missed' == (missed && OpenedAmong(e, day1, lots, |lots|, l) == 0)
  {
    var n := e.settings.contractSize;
    var m := Maturity(day1);
    xc := seq(|lots|, _ => 0);
    money', nopencalls', writtencall', missed' := money, nopencalls, writtencall, missed;
    EmptyScan(e, day1, lots, |lots|);
    l := day1;
    // before each day: stop if every lot holds a call, else stop on the deadline day
    while l < m && 0 in xc && l - day1 != e.settings.deadline
      invariant day1 <= l <= CallWindowEnd(e.settings, day1)
      invariant xc == StrikesBy(e, day1, lots, l)
      invariant money' == money + n * IncomeAmong(e, day1, lots, |lots|, l)
      invariant nopencalls' == nopencalls + OpenedAmong(e, day1, lots, |lots|, l)
      invariant writtencall' == (writtencall || OpenedAmong(e, day1, lots, |lots|, l) > 0)
      invariant missed' == (missed && OpenedAmong(e, day1, lots, |lots|, l) == 0)
    {
      xc, money', nopencalls', writtencall', missed' :=
        ScanDay(e, day1, l, lots, xc, money', nopencalls', writtencall', missed');
      l := l + 1;
    }
  }

  /**
   * Day l of the covered-call scan: the day's strike and premium are
   * computed once from the day's price and the days left to maturity, and
   * offered to every lot.
   */
  method ScanDay(e: Env, day1: int, l: int, lots: seq<int>, xc: seq<int>,
                 money: int, nopencalls: int, writtencall: bool, missed: bool)
    returns (xc': seq<int>, money': int, nopencalls': int, writtencall': bool, missed': bool)
    requires ValidEnv(e) && 0 <= day1 <= l < Maturity(day1) && Maturity(day1) < |e.prices|
    requires xc == StrikesBy(e, day1, lots, l)
    ensures xc' == StrikesBy(e, day1, lots, l + 1)
    ensures money' == money + e.settings.contractSize * IncomeAmong(e, day1, lots, |lots|, l + 1)
                            - e.settings.contractSize * IncomeAmong(e, day1, lots, |lots|, l)
    ensures nopencalls' == nopencalls + OpenedAmong(e, day1, lots, |lots|, l + 1) - OpenedAmong(e, day1, lots, |lots|, l)
    ensures nopencalls' >= nopencalls
    ensures writtencall' == (writtencall || nopencalls' > nopencalls)
    ensures missed' == (missed && nopencalls' == nopencalls)
  {
    var n := e.settings.contractSize;
    var m := Maturity(day1);
    var xctmp := e.market.callStrike(e.prices[l]);
    var c := e.market.premium(Call, e.prices[l], xctmp, m - l);
    if c < 1 {
      c := 1;
    }
    xc', money', nopencalls', writtencall', missed' :=
      OfferCallOnDay(lots, xc, xctmp, c, n, money, nopencalls, writtencall, missed);
    OfferIsScanDay(e, day1, l, lots, xc, xc', xctmp, c, n);
  }

  /**
   * One day of the covered-call scan: every lot without a call whose
   * purchase price is below strike + premium receives the call, and each
   * acceptance credits the premium for a whole contract of n shares.
   */
  method OfferCallOnDay(lots: seq<int>, xc: seq<int>, xctmp: int, c: int, n: int,
                        money: int, nopencalls: int, writtencall: bool, missed: bool)
    returns (xc': seq<int>, money': int, nopencalls': int, writtencall': bool, missed': bool)
    requires |xc| == |lots|
    ensures |xc'| == |lots|
    ensures forall i :: 0 <= i < |lots| ==> xc'[i] == Offered(xc[i], lots[i], xctmp, c)
    ensures nopencalls' == nopencalls + Takers(xc, lots, xctmp, c, |lots|)
    ensures money' == money + n * (Takers(xc, lots, xctmp, c, |lots|) * c)
    ensures writtencall' == (writtencall || nopencalls' > nopencalls)
    ensures missed' == (missed && nopencalls' == nopencalls)
  {
    xc', money', nopencalls', writtencall', missed' := xc, money, nopencalls, writtencall, missed;
    var k := 0;
    while k < |lots|
      invariant 0 <= k <= |lots|
      invariant |xc'| == |lots|
      invariant forall i :: 0 <= i < k ==> xc'[i] == Offered(xc[i], lots[i], xctmp, c)
      invariant forall i :: k <= i < |lots| ==> xc'[i] == xc[i]
      invariant nopencalls' == nopencalls + Takers(xc, lots, xctmp, c, k)
      invariant money' == money + Repeated(Takers(xc, lots, xctmp, c, k), c * n)
      invariant writtencall' == (writtencall || nopencalls' > nopencalls)
      invariant missed' == (missed && nopencalls' == nopencalls)
    {
      if xc'[k] > 0 {
      } else if xctmp + c > lots[k] {
        xc' := xc'[k := xctmp];
        money' := money' + c * n;
        nopencalls' := nopencalls' + 1;
        writtencall' := true;
        missed' := false;
      }
      k := k + 1;
    }
    ghost var taken := Takers(xc, lots, xctmp, c, |lots|);
    RepeatedIsProduct(taken, c * n);
    MulRearranges(n, taken, c);
  }

  /**
   * Settlement of the covered calls at maturity: every lot whose call
   * strike is positive and at most the spot is sold at the strike (cash up
   * by strike * n, n shares fewer, one more exercised call) and its purchase
   * price is cleared to 0; the cleared entries are then dropped.
   */
  method SettleCalls(lots: seq<int>, xc: seq<int>, spot: int, n: int,
                     money: int, stock: int, nexercised: int)
    returns (lots': seq<int>, money': int, stock': int, nexercised': int)
    requires |xc| == |lots|
    requires forall i :: 0 <= i < |lots| ==> lots[i] > 0
    ensures lots' == Kept(lots, xc, spot)
    ensures money' == money + n * CallProceeds(xc, spot)
    ensures stock' == stock - n * ExercisedCount(xc, spot)
    ensures nexercised' == nexercised + ExercisedCount(xc, spot)
  {
    var purchaseprice := lots;
    money', stock', nexercised' := money, stock, nexercised;
    var k := 0;
    while k < |lots|
      invariant 0 <= k <= |lots| && |purchaseprice| == |lots|
      invariant forall i :: 0 <= i < |lots| ==>
                  purchaseprice[i] == if i < k && CallExercised(xc[i], spot) then 0 else lots[i]
      invariant money' == money + n * CallProceeds(xc[..k], spot)
      invariant stock' == stock - n * ExercisedCount(xc[..k], spot)
      invariant nexercised' == nexercised + ExercisedCount(xc[..k], spot)
    {
      assert xc[..k + 1][..k] == xc[..k];
      ghost var before, proceeds, sold := money', CallProceeds(xc[..k], spot), ExercisedCount(xc[..k], spot);
      if xc[k] > 0 && xc[k] <= spot {
        money' := money' + xc[k] * n;
        stock' := stock' - n;
        nexercised' := nexercised' + 1;
        purchaseprice := purchaseprice[k := 0];
        CreditAdds(money, before, money', n, proceeds, xc[k]);
        MulDistributes(n, sold, 1);
      }
      k := k + 1;
    }
    assert xc[..|lots|] == xc;
    assert purchaseprice == Cleared(lots, xc, spot);
    ClearedThenKept(lots, xc, spot);
    lots' := Positives(purchaseprice);
  }

  /**
   * The opening half of a period: the covered-call scan when lots are held;
   * then, when no lots are held or the fallback fired, the cash-secured put
   * on day1 or on the day before the deadline, written only if its strike is
   * at least the minimum price. `missed` is cleared by any written option.
   */
  method OpenPositions(e: Env, day1: int, lots: seq<int>, money: int, nopencalls: int, nopenputs: int,
                       writtencall: bool, writtenput: bool)
    returns (xc: seq<int>, xp: int, money': int, nopencalls': int, nopenputs': int,
             writtencall': bool, writtenput': bool, missed: bool)
    requires ValidEnv(e) && 0 <= day1 && day1 + DaysPerPeriod <= |e.prices|
    requires !writtencall && !writtenput
    ensures writtencall' == (Accepted(e, day1, lots) > 0)
    ensures writtencall' ==> xc == CallStrikes(e, day1, lots)
    ensures writtenput' == PutWritten(e, day1, lots)
    ensures writtenput' ==> xp == PutStrike(e, day1, lots)
    ensures money' == money + e.settings.contractSize * CallIncome(e, day1, lots)
                            + e.settings.contractSize * PutIncome(e, day1, lots)
    ensures nopencalls' == nopencalls + Accepted(e, day1, lots)
    ensures nopenputs' == nopenputs + (if writtenput' then 1 else 0)
    ensures missed == (!writtencall' && !writtenput')
  {
    var n := e.settings.contractSize;
    var m := day1 + DaysPerPeriod - 1;
    missed := true;
    var writeput := false;
    money', nopencalls', nopenputs', writtencall', writtenput' := money, nopencalls, nopenputs, writtencall, writtenput;
    xc := [];
    if |lots| > 0 {
      xc, money', nopencalls', writtencall', missed, writeput :=
        WriteCoveredCalls(e, day1, lots, money', nopencalls', writtencall', missed);
    } else {
      EmptyScan(e, day1, lots, 0);
    }
    assert writeput == Fallback(e, day1, lots);
    xp := 0;
    if |lots| == 0 || writeput {
      xp, money', nopenputs', writtenput', missed := WritePut(e, day1, writeput, money', nopenputs', missed);
    }
  }

  /**
   * The cash-secured put of period day1, on day1 or, on the fallback, on
   * the day before the deadline: written only if its strike is at least the
   * minimum price, and then it credits its premium (at least one cent) for
   * a whole contract.
   */
  method WritePut(e: Env, day1: int, fallback: bool, money: int, nopenputs: int, missed: bool)
    returns (xp: int, money': int, nopenputs': int, writtenput: bool, missed': bool)
    requires ValidEnv(e) && 0 <= day1 && day1 + DaysPerPeriod <= |e.prices|
    requires fallback ==> e.settings.deadline < DaysPerPeriod - 1
    ensures xp == PutStrikeOn(e, PutDay(e.settings, day1, fallback))
    ensures writtenput == PutAllowed(e, PutDay(e.settings, day1, fallback))
    ensures writtenput ==> money' == money + e.settings.contractSize * PutPremiumOn(e, PutDay(e.settings, day1, fallback), Maturity(day1))
    ensures !writtenput ==> money' == money
    ensures nopenputs' == nopenputs + (if writtenput then 1 else 0)
    ensures missed' == (missed && !writtenput)
  {
    var n := e.settings.contractSize;
    var m := day1 + DaysPerPeriod - 1;
    var dayOpenPut;
    if fallback {
      dayOpenPut := day1 + e.settings.deadline - 1;
    } else {
      dayOpenPut := day1;
    }
    money', nopenputs', writtenput, missed' := money, nopenputs, false, missed;
    xp := e.market.putStrike(e.prices[dayOpenPut]);
    if xp as real >= e.settings.minPrice {
      var p := e.market.premium(Put, e.prices[dayOpenPut], xp, m - dayOpenPut);
      if p < 1 {
        p := 1;
      }
      money' := money' + p * n;
      nopenputs' := nopenputs' + 1;
      writtenput := true;
      missed' := false;
    }
  }

  /**
   * Settlement of a written put at maturity: it is assigned when its strike
   * is at least the spot, which buys a contract at the strike and opens a
   * lot at that price; a negative balance is then paid from the trader's
   * pocket, added to the money spent and the cash reset to 0.
   */
  method SettlePut(xp: int, spot: int, n: int, lots: seq<int>, money: int, stock: int,
                   nexercised: int, moneySpent: int)
    returns (lots': seq<int>, money': int, stock': int, nexercised': int, moneySpent': int)
    ensures xp >= spot ==> lots' == lots + [xp] && stock' == stock + n && nexercised' == nexercised + 1
    ensures xp >= spot ==> money' == (if money - n * xp < 0 then 0 else money - n * xp)
    ensures xp >= spot ==> moneySpent' == moneySpent + (if money - n * xp < 0 then n * xp - money else 0)
    ensures xp < spot ==> lots' == lots && money' == money && stock' == stock && nexercised' == nexercised
    ensures xp < spot ==> moneySpent' == moneySpent
    ensures money' >= 0 || (xp < spot && money' == money)
    ensures money' - moneySpent' == (if xp >= spot then money - n * xp else money) - moneySpent
  {
    lots', money', stock', nexercised', moneySpent' := lots, money, stock, nexercised, moneySpent;
    if xp >= spot {
      money' := money' - xp * n;
      stock' := stock' + n;
      nexercised' := nexercised' + 1;
      lots' := lots' + [xp];
      if money' < 0 {
        moneySpent' := moneySpent' - money';
        money' := 0;
      }
    }
  }

  /**
   * Period j of a path, from the state at its start: the positions are
   * opened, then the calls and the put are settled at maturity and the
   * period is counted as missed if nothing was written. The path's flags
   * `writtencall` and `writtenput` are clear at the start of every period
   * and again at its end.
   */
  method RunPeriod(e: Env, j: int, st: PathState, writtencall: bool, writtenput: bool)
    returns (st': PathState, writtencall': bool, writtenput': bool)
    requires ValidEnv(e) && 0 <= j && (j + 1) * 21 <= |e.prices|
    requires forall i :: 0 <= i < |st.lots| ==> st.lots[i] > 0
    requires !writtencall && !writtenput
    ensures st' == Period(e, j, st)
    ensures !writtencall' && !writtenput'
  {
    var n := e.settings.contractSize;
    var day1 := j * 21;
    var m := Maturity(day1);
    var money, stock, purchaseprice := st.cash, st.shares, st.lots;
    var nopencalls, nexercisedcalls, nopenputs, nexercisedputs, moneySpent :=
      st.callsOpened, st.callsExercised, st.putsOpened, st.putsExercised, st.moneySpent;
    var xc, xp, missed;
    xc, xp, money, nopencalls, nopenputs, writtencall', writtenput', missed :=
      OpenPositions(e, day1, purchaseprice, money, nopencalls, nopenputs, writtencall, writtenput);
    if writtencall' {
      purchaseprice, money, stock, nexercisedcalls :=
        SettleCalls(purchaseprice, xc, e.prices[m], n, money, stock, nexercisedcalls);
      writtencall' := false;
    }
    if writtenput' {
      purchaseprice, money, stock, nexercisedputs, moneySpent :=
        SettlePut(xp, e.prices[m], n, purchaseprice, money, stock, nexercisedputs, moneySpent);
      writtenput' := false;
    }
    var missedCount := st.missed + if missed then 1 else 0;
    st' := PathState(money, stock, purchaseprice, missedCount, nopencalls, nexercisedcalls,
                     nopenputs, nexercisedputs, moneySpent);
    PeriodIs(e, j, st, st');
  }

  /** One more period of a path: the path so far grows by the state RunPeriod reaches. */
  method NextPeriod(e: Env, j: int, st: PathState, writtencall: bool, writtenput: bool, ghost states: seq<PathState>)
    returns (st': PathState, writtencall': bool, writtenput': bool, ghost states': seq<PathState>)
    requires ValidEnv(e) && IsPath(e, states) && |states| == j + 1 && (j + 1) * 21 <= |e.prices|
    requires st == states[j] && Consistent(e.settings, st)
    requires !writtencall && !writtenput
    ensures states' == states + [st'] && IsPath(e, states') && Consistent(e.settings, st')
    ensures !writtencall' && !writtenput'
  {
    st', writtencall', writtenput' := RunPeriod(e, j, st, writtencall, writtenput);
    ExtendPath(e, states, st');
    states' := states + [st'];
  }

  /**
   * One trading path: periods 0 .. nperiods-1 in order, each starting from
   * the state the previous one left. After period j the path's cash and
   * shares are stored in column j of row `row` of `money` and `stock`;
   * `states` is the path's sequence of states, from the initial one.
   */
  method SimulatePath(e: Env, nperiods: nat, money: array2<int>, stock: array2<int>, row: int)
    returns (final: PathState, ghost states: seq<PathState>)
    requires ValidEnv(e) && |e.prices| == nperiods * 21
    requires money != stock
    requires 0 <= row < money.Length0 == stock.Length0
    requires money.Length1 == stock.Length1 == nperiods
    modifies money, stock
    ensures |states| == nperiods + 1 && IsPath(e, states) && final == states[nperiods]
    ensures forall j :: 0 <= j < nperiods ==> money[row, j] == states[j + 1].cash && stock[row, j] == states[j + 1].shares
    ensures forall i, j :: 0 <= i < money.Length0 && i != row && 0 <= j < nperiods ==>
              money[i, j] == old(money[i, j]) && stock[i, j] == old(stock[i, j])
  {
    var writtencall, writtenput := false, false;
    var st := InitialState(e.settings);
    states := [st];
    var j := 0;
    while j < nperiods
      invariant 0 <= j <= nperiods
      invariant |states| == j + 1 && IsPath(e, states) && st == states[j]
      invariant Consistent(e.settings, st)
      invariant !writtencall && !writtenput
      invariant forall j' :: 0 <= j' < j ==> money[row, j'] == states[j' + 1].cash && stock[row, j'] == states[j' + 1].shares
      invariant forall i, j' :: 0 <= i < money.Length0 && i != row && 0 <= j' < nperiods ==>
                  money[i, j'] == old(money[i, j']) && stock[i, j'] == old(stock[i, j'])
    {
      st, writtencall, writtenput, states := NextPeriod(e, j, st, writtencall, writtenput, states);
      money[row, j] := st.cash;
      stock[row, j] := st.shares;
      j := j + 1;
    }
    final := st;
  }
}
