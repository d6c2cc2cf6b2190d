/**
 * Properties of the Wheel state machine of module WheelSpec: the call scan,
 * the settlement of calls, and the invariants every period keeps.
 */
module WheelProofs {
  import opened WheelSpec

  // ---------------------------------------------------------------- arithmetic helpers

  lemma MulNonNegative(a: int, b: int)
    requires a >= 0 && b >= 0
    ensures a * b >= 0
  {
  }

  lemma MulDistributes(n: int, a: int, b: int)
    ensures n * (a + b) == n * a + n * b
    ensures n * (a - b) == n * a - n * b
    ensures (a + b) * n == a * n + b * n
  {
  }

  lemma MulRearranges(a: int, b: int, c: int)
    ensures a * (b * c) == b * (c * a)
  {
  }

  /** Crediting n * gain on top of n * income gives n * (income + gain). */
  lemma CreditAdds(base: int, before: int, after: int, n: int, income: int, gain: int)
    requires before == base + n * income && after == before + n * gain
    ensures after == base + n * (income + gain)
  {
    MulDistributes(n, income, gain);
  }

  /** x added t times: how the engine accumulates one credit per accepted call. */
  function Repeated(t: nat, x: int): int
  {
    if t == 0 then 0 else Repeated(t - 1, x) + x
  }

  lemma {:induction false} RepeatedIsProduct(t: nat, x: int)
    ensures Repeated(t, x) == t * x
  {
    if t > 0 {
      RepeatedIsProduct(t - 1, x);
      MulDistributes(x, t - 1, 1);
    }
  }

  // ---------------------------------------------------------------- the call scan

  /** Extending the scan window by one day, spelled out. */
  lemma FirstCoveringDayNext(e: Env, m: int, cost: int, start: int, l: int)
    requires 0 <= start <= l < |e.prices|
    ensures FirstCoveringDay(e, m, cost, start, l + 1) ==
              if FirstCoveringDay(e, m, cost, start, l) < l then FirstCoveringDay(e, m, cost, start, l)
              else if CallCovers(e, l, m, cost) then l
              else l + 1
  {
  }

  /** The premium is at least a cent, so a lot bought at or below the day's strike is always covered. */
  lemma CoveredAtStrike(e: Env, l: int, m: int, cost: int)
    requires 0 <= l < |e.prices|
    ensures cost <= CallStrikeOn(e, l) ==> CallCovers(e, l, m, cost)
  {
  }

  /** Once a lot has received its call, later days of the scan do not change it. */
  lemma {:induction false} FirstCoveringDayStable(e: Env, m: int, cost: int, start: int, l: int, end: int)
    requires 0 <= start <= l <= end <= |e.prices|
    requires FirstCoveringDay(e, m, cost, start, l) < l
    ensures FirstCoveringDay(e, m, cost, start, end) == FirstCoveringDay(e, m, cost, start, l)
    decreases end - l
  {
    if end > l {
      FirstCoveringDayStable(e, m, cost, start, l, end - 1);
    }
  }

  /**
   * A lot holds a positive call strike exactly when some day of the window
   * passes the acceptance rule; the strike and the premium are those of the
   * first such day, and that day is strictly before maturity.
   */
  lemma CallAcceptanceRule(e: Env, day1: int, cost: int, end: int)
    requires ValidEnv(e)
    requires 0 <= day1 <= end <= |e.prices| && end <= Maturity(day1)
    ensures StrikeBy(e, day1, cost, end) >= 0
    ensures StrikeBy(e, day1, cost, end) > 0 <==> CoveredBy(e, day1, cost, end)
    ensures CoveredBy(e, day1, cost, end) <==>
              exists d :: day1 <= d < end && CallCovers(e, d, Maturity(day1), cost)
    ensures CoveredBy(e, day1, cost, end) ==>
              var d := FirstCoveringDay(e, Maturity(day1), cost, day1, end);
              && day1 <= d < end
              && 1 <= Maturity(day1) - d <= DaysPerPeriod - 1
              && StrikeBy(e, day1, cost, end) == CallStrikeOn(e, d)
              && PremiumBy(e, day1, cost, end) == CallPremiumOn(e, d, Maturity(day1))
              && CallStrikeOn(e, d) + CallPremiumOn(e, d, Maturity(day1)) > cost
    ensures !CoveredBy(e, day1, cost, end) ==>
              StrikeBy(e, day1, cost, end) == 0 && PremiumBy(e, day1, cost, end) == 0
  {
    var d := FirstCoveringDay(e, Maturity(day1), cost, day1, end);
    if d < end {
      assert e.prices[d] > 0;
    }
  }

  /** One more day of the scan for one lot: a lot without a call takes the day's call if it covers the cost. */
  lemma ScanStep(e: Env, day1: int, cost: int, l: int)
    requires ValidEnv(e)
    requires 0 <= day1 <= l < Maturity(day1) && Maturity(day1) < |e.prices|
    ensures StrikeBy(e, day1, cost, l) >= 0
    ensures StrikeBy(e, day1, cost, l) > 0 <==> CoveredBy(e, day1, cost, l)
    ensures CoveredBy(e, day1, cost, l + 1) <==> CoveredBy(e, day1, cost, l) || CallCovers(e, l, Maturity(day1), cost)
    ensures StrikeBy(e, day1, cost, l + 1) ==
              if CoveredBy(e, day1, cost, l) then StrikeBy(e, day1, cost, l)
              else if CallCovers(e, l, Maturity(day1), cost) then CallStrikeOn(e, l)
              else 0
    ensures PremiumBy(e, day1, cost, l + 1) ==
              if CoveredBy(e, day1, cost, l) then PremiumBy(e, day1, cost, l)
              else if CallCovers(e, l, Maturity(day1), cost) then CallPremiumOn(e, l, Maturity(day1))
              else 0
  {
    FirstCoveringDayNext(e, Maturity(day1), cost, day1, l);
    var d := FirstCoveringDay(e, Maturity(day1), cost, day1, l);
    if d < l {
      assert e.prices[d] > 0;
    }
  }

  /**
   * One lot on one day of the scan: a lot without a call takes the day's
   * call exactly when the acceptance rule holds, and the counts of the
   * first k+1 lots grow accordingly.
   */
  lemma LotStep(e: Env, day1: int, lots: seq<int>, k: nat, l: int)
    requires ValidEnv(e)
    requires 0 <= day1 <= l < Maturity(day1) && Maturity(day1) < |e.prices| && k < |lots|
    ensures StrikeBy(e, day1, lots[k], l) > 0 <==> CoveredBy(e, day1, lots[k], l)
    ensures
      var takes := !CoveredBy(e, day1, lots[k], l) && CallCovers(e, l, Maturity(day1), lots[k]);
      && StrikeBy(e, day1, lots[k], l + 1) == (if takes then CallStrikeOn(e, l) else StrikeBy(e, day1, lots[k], l))
      && OpenedAmong(e, day1, lots, k + 1, l + 1) - OpenedAmong(e, day1, lots, k + 1, l)
         == OpenedAmong(e, day1, lots, k, l + 1) - OpenedAmong(e, day1, lots, k, l) + (if takes then 1 else 0)
      && IncomeAmong(e, day1, lots, k + 1, l + 1) - IncomeAmong(e, day1, lots, k + 1, l)
         == IncomeAmong(e, day1, lots, k, l + 1) - IncomeAmong(e, day1, lots, k, l)
            + (if takes then CallPremiumOn(e, l, Maturity(day1)) else 0)
  {
    ScanStep(e, day1, lots[k], l);
  }

  /** One day's offer to a lot is the lot's scan extended by that day. */
  lemma OfferIsScanStep(e: Env, day1: int, l: int, lots: seq<int>, xc: seq<int>, strike: int, premium: int)
    requires ValidEnv(e)
    requires 0 <= day1 <= l < Maturity(day1) && Maturity(day1) < |e.prices|
    requires strike == CallStrikeOn(e, l) && premium == CallPremiumOn(e, l, Maturity(day1))
    requires |xc| == |lots|
    requires forall i :: 0 <= i < |lots| ==> xc[i] == StrikeBy(e, day1, lots[i], l)
    ensures forall i :: 0 <= i < |lots| ==> Offered(xc[i], lots[i], strike, premium) == StrikeBy(e, day1, lots[i], l + 1)
  {
    forall i | 0 <= i < |lots|
      ensures Offered(xc[i], lots[i], strike, premium) == StrikeBy(e, day1, lots[i], l + 1)
    {
      ScanStep(e, day1, lots[i], l);
    }
  }

  /**
   * One day's offer, as the engine makes it to every lot, is one more day
   * of the scan: the strikes become those of the scan extended by day l,
   * the lots that take the offer are the calls the scan opens that day, and
   * they bring the day's premium each.
   */
  lemma OfferIsScanDay(e: Env, day1: int, l: int, lots: seq<int>, xc: seq<int>, xc': seq<int>,
                       strike: int, premium: int, n: int)
    requires ValidEnv(e)
    requires 0 <= day1 <= l < Maturity(day1) && Maturity(day1) < |e.prices|
    requires strike == CallStrikeOn(e, l) && premium == CallPremiumOn(e, l, Maturity(day1))
    requires xc == StrikesBy(e, day1, lots, l)
    requires |xc'| == |lots| && forall i :: 0 <= i < |lots| ==> xc'[i] == Offered(xc[i], lots[i], strike, premium)
    ensures xc' == StrikesBy(e, day1, lots, l + 1)
    ensures Takers(xc, lots, strike, premium, |lots|)
            == OpenedAmong(e, day1, lots, |lots|, l + 1) - OpenedAmong(e, day1, lots, |lots|, l)
    ensures Takers(xc, lots, strike, premium, |lots|) * premium
            == IncomeAmong(e, day1, lots, |lots|, l + 1) - IncomeAmong(e, day1, lots, |lots|, l)
    ensures n * (Takers(xc, lots, strike, premium, |lots|) * premium)
            == n * IncomeAmong(e, day1, lots, |lots|, l + 1) - n * IncomeAmong(e, day1, lots, |lots|, l)
  {
    OfferIsScanStep(e, day1, l, lots, xc, strike, premium);
    TakersAreNewCalls(e, day1, l, lots, xc, strike, premium, |lots|);
    TakersBringPremium(e, day1, l, lots, xc, strike, premium, |lots|);
    RepeatedIsProduct(Takers(xc, lots, strike, premium, |lots|), premium);
    ghost var income, income' := IncomeAmong(e, day1, lots, |lots|, l), IncomeAmong(e, day1, lots, |lots|, l + 1);
    ghost var gain := Takers(xc, lots, strike, premium, |lots|) * premium;
    assert gain == income' - income;
    MulDistributes(n, income', income);
  }

  /** A lot takes one day's offer exactly when the scan opens its call on that day, and then it brings the day's premium. */
  lemma LotTakes(e: Env, day1: int, cost: int, held: int, l: int, strike: int, premium: int)
    requires ValidEnv(e)
    requires 0 <= day1 <= l < Maturity(day1) && Maturity(day1) < |e.prices|
    requires strike == CallStrikeOn(e, l) && premium == CallPremiumOn(e, l, Maturity(day1))
    requires held == StrikeBy(e, day1, cost, l)
    ensures (if CoveredBy(e, day1, cost, l + 1) then 1 else 0) - (if CoveredBy(e, day1, cost, l) then 1 else 0)
            == (if held <= 0 && strike + premium > cost then 1 else 0)
    ensures PremiumBy(e, day1, cost, l + 1) - PremiumBy(e, day1, cost, l)
            == (if held <= 0 && strike + premium > cost then premium else 0)
  {
    ScanStep(e, day1, cost, l);
  }

  /** The lots that take one day's offer are the calls the scan opens on that day. */
  lemma {:induction false} TakersAreNewCalls(e: Env, day1: int, l: int, lots: seq<int>, xc: seq<int>,
                                             strike: int, premium: int, k: nat)
    requires ValidEnv(e)
    requires 0 <= day1 <= l < Maturity(day1) && Maturity(day1) < |e.prices|
    requires strike == CallStrikeOn(e, l) && premium == CallPremiumOn(e, l, Maturity(day1))
    requires |xc| == |lots| && k <= |lots|
    requires forall i :: 0 <= i < |lots| ==> xc[i] == StrikeBy(e, day1, lots[i], l)
    ensures Takers(xc, lots, strike, premium, k) == OpenedAmong(e, day1, lots, k, l + 1) - OpenedAmong(e, day1, lots, k, l)
  {
    if k > 0 {
      TakersAreNewCalls(e, day1, l, lots, xc, strike, premium, k - 1);
      LotTakes(e, day1, lots[k - 1], xc[k - 1], l, strike, premium);
    }
  }

  /** Each lot that takes one day's offer brings that day's premium to the scan's income. */
  lemma {:induction false} TakersBringPremium(e: Env, day1: int, l: int, lots: seq<int>, xc: seq<int>,
                                              strike: int, premium: int, k: nat)
    requires ValidEnv(e)
    requires 0 <= day1 <= l < Maturity(day1) && Maturity(day1) < |e.prices|
    requires strike == CallStrikeOn(e, l) && premium == CallPremiumOn(e, l, Maturity(day1))
    requires |xc| == |lots| && k <= |lots|
    requires forall i :: 0 <= i < |lots| ==> xc[i] == StrikeBy(e, day1, lots[i], l)
    ensures Repeated(Takers(xc, lots, strike, premium, k), premium) == IncomeAmong(e, day1, lots, k, l + 1) - IncomeAmong(e, day1, lots, k, l)
  {
    if k > 0 {
      TakersBringPremium(e, day1, l, lots, xc, strike, premium, k - 1);
      TakerStep(e, day1, l, lots, xc, strike, premium, k);
    }
  }

  /** The k-th lot's share of one day's offer: the day's premium if it takes the offer, nothing otherwise. */
  lemma TakerStep(e: Env, day1: int, l: int, lots: seq<int>, xc: seq<int>, strike: int, premium: int, k: nat)
    requires ValidEnv(e)
    requires 0 <= day1 <= l < Maturity(day1) && Maturity(day1) < |e.prices|
    requires strike == CallStrikeOn(e, l) && premium == CallPremiumOn(e, l, Maturity(day1))
    requires |xc| == |lots| && 0 < k <= |lots|
    requires xc[k - 1] == StrikeBy(e, day1, lots[k - 1], l)
    ensures Repeated(Takers(xc, lots, strike, premium, k), premium)
            - Repeated(Takers(xc, lots, strike, premium, k - 1), premium)
            == IncomeAmong(e, day1, lots, k, l + 1) - IncomeAmong(e, day1, lots, k - 1, l + 1)
               - (IncomeAmong(e, day1, lots, k, l) - IncomeAmong(e, day1, lots, k - 1, l))
  {
    LotTakes(e, day1, lots[k - 1], xc[k - 1], l, strike, premium);
    assert IncomeAmong(e, day1, lots, k, l + 1) - IncomeAmong(e, day1, lots, k - 1, l + 1)
           == PremiumBy(e, day1, lots[k - 1], l + 1);
    assert IncomeAmong(e, day1, lots, k, l) - IncomeAmong(e, day1, lots, k - 1, l)
           == PremiumBy(e, day1, lots[k - 1], l);
    var t := Takers(xc, lots, strike, premium, k - 1);
    if xc[k - 1] <= 0 && strike + premium > lots[k - 1] {
      assert Repeated(t + 1, premium) == Repeated(t, premium) + premium;
    }
  }

  /** When each of the first k lots has its call by day l, the rest of the scan changes nothing for them. */
  lemma {:induction false} ScanSettled(e: Env, day1: int, costs: seq<int>, k: nat, l: int, end: int)
    requires 0 <= day1 <= l <= end <= |e.prices| && k <= |costs|
    requires forall i :: 0 <= i < k ==> CoveredBy(e, day1, costs[i], l)
    ensures forall i :: 0 <= i < k ==> StrikeBy(e, day1, costs[i], end) == StrikeBy(e, day1, costs[i], l)
    ensures OpenedAmong(e, day1, costs, k, end) == OpenedAmong(e, day1, costs, k, l) == k
    ensures IncomeAmong(e, day1, costs, k, end) == IncomeAmong(e, day1, costs, k, l)
  {
    forall i | 0 <= i < k
      ensures FirstCoveringDay(e, Maturity(day1), costs[i], day1, end) == FirstCoveringDay(e, Maturity(day1), costs[i], day1, l)
    {
      FirstCoveringDayStable(e, Maturity(day1), costs[i], day1, l, end);
    }
    if k > 0 {
      ScanSettled(e, day1, costs, k - 1, l, end);
    }
  }

  /** A scan in which every lot holds its call by day l ends, at the window's end, where it stood on day l. */
  lemma SettledScan(e: Env, day1: int, lots: seq<int>, xc: seq<int>, l: int, end: int)
    requires ValidEnv(e)
    requires 0 <= day1 <= l <= end <= Maturity(day1) && Maturity(day1) < |e.prices|
    requires xc == StrikesBy(e, day1, lots, l) && 0 !in xc
    ensures xc == StrikesBy(e, day1, lots, end)
    ensures OpenedAmong(e, day1, lots, |lots|, end) == OpenedAmong(e, day1, lots, |lots|, l) == |lots|
    ensures IncomeAmong(e, day1, lots, |lots|, end) == IncomeAmong(e, day1, lots, |lots|, l)
  {
    forall k | 0 <= k < |lots| ensures CoveredBy(e, day1, lots[k], l) {
      assert xc[k] != 0;
      CallAcceptanceRule(e, day1, lots[k], l);
    }
    ScanSettled(e, day1, lots, |lots|, l, end);
  }

  /** Before the first day of the scan no lot holds a call and nothing is collected. */
  lemma {:induction false} EmptyScan(e: Env, day1: int, costs: seq<int>, k: nat)
    requires 0 <= day1 <= |e.prices| && k <= |costs|
    ensures forall i :: 0 <= i < |costs| ==> StrikeBy(e, day1, costs[i], day1) == 0
    ensures OpenedAmong(e, day1, costs, k, day1) == 0
    ensures IncomeAmong(e, day1, costs, k, day1) == 0
  {
    if k > 0 {
      EmptyScan(e, day1, costs, k - 1);
    }
  }

  /** The lots holding a call strike are the lots that received a call in the scan. */
  lemma {:induction false} WrittenCounts(e: Env, day1: int, lots: seq<int>, xc: seq<int>, k: nat, end: int)
    requires ValidEnv(e)
    requires 0 <= day1 <= end <= |e.prices| && end <= Maturity(day1)
    requires |xc| == |lots| && k <= |lots|
    requires forall i :: 0 <= i < |lots| ==> xc[i] == StrikeBy(e, day1, lots[i], end)
    ensures Written(xc[..k]) == OpenedAmong(e, day1, lots, k, end)
  {
    if k > 0 {
      WrittenCounts(e, day1, lots, xc, k - 1, end);
      assert xc[..k][..k - 1] == xc[..k - 1];
      CallAcceptanceRule(e, day1, lots[k - 1], end);
    }
  }

  /** The period's call strikes hold exactly as many calls as the scan accepted. */
  lemma AcceptedAreWritten(e: Env, day1: int, lots: seq<int>)
    requires ValidEnv(e) && 0 <= day1 && day1 + DaysPerPeriod <= |e.prices|
    ensures Written(CallStrikes(e, day1, lots)) == Accepted(e, day1, lots)
  {
    var xc := CallStrikes(e, day1, lots);
    WrittenCounts(e, day1, lots, xc, |lots|, CallWindowEnd(e.settings, day1));
    assert xc[..|lots|] == xc;
  }

  // ---------------------------------------------------------------- settlement

  /** Clearing the sold lots and then dropping the cleared entries leaves exactly the kept lots. */
  lemma {:induction false} ClearedThenKept(lots: seq<int>, xc: seq<int>, spot: int)
    requires |xc| == |lots|
    requires forall i :: 0 <= i < |lots| ==> lots[i] > 0
    ensures Positives(Cleared(lots, xc, spot)) == Kept(lots, xc, spot)
    decreases |lots|
  {
    if lots != [] {
      var n := |lots| - 1;
      ClearedThenKept(lots[..n], xc[..n], spot);
      assert Cleared(lots, xc, spot)[..n] == Cleared(lots[..n], xc[..n], spot);
    }
  }

  /** One lot is sold per exercised call. */
  lemma {:induction false} SoldCount(lots: seq<int>, xc: seq<int>, spot: int)
    requires |xc| == |lots|
    ensures |Sold(lots, xc, spot)| == ExercisedCount(xc, spot)
    decreases |lots|
  {
    if lots != [] {
      var n := |lots| - 1;
      SoldCount(lots[..n], xc[..n], spot);
    }
  }

  /** The kept lots and the sold lots together are exactly the lots held. */
  lemma {:induction false} SettlementPartition(lots: seq<int>, xc: seq<int>, spot: int)
    requires |xc| == |lots|
    ensures multiset(Kept(lots, xc, spot)) + multiset(Sold(lots, xc, spot)) == multiset(lots)
    decreases |lots|
  {
    if lots != [] {
      var n := |lots| - 1;
      var kept, sold := Kept(lots[..n], xc[..n], spot), Sold(lots[..n], xc[..n], spot);
      SettlementPartition(lots[..n], xc[..n], spot);
      assert lots == lots[..n] + [lots[n]];
      assert multiset(lots) == multiset(lots[..n]) + multiset{lots[n]};
      if CallExercised(xc[n], spot) {
        assert Kept(lots, xc, spot) == kept;
        assert multiset(Sold(lots, xc, spot)) == multiset(sold) + multiset{lots[n]};
      } else {
        assert Sold(lots, xc, spot) == sold;
        assert multiset(Kept(lots, xc, spot)) == multiset(kept) + multiset{lots[n]};
      }
    }
  }

  /** Only a lot holding a call can be sold. */
  lemma {:induction false} ExercisedAtMostWritten(xc: seq<int>, spot: int)
    ensures ExercisedCount(xc, spot) <= Written(xc)
    decreases |xc|
  {
    if xc != [] {
      ExercisedAtMostWritten(xc[..|xc| - 1], spot);
    }
  }

  /** When no call is exercised every lot is kept, in order. */
  lemma {:induction false} NoExerciseKeepsAll(lots: seq<int>, xc: seq<int>, spot: int)
    requires |xc| == |lots|
    requires ExercisedCount(xc, spot) == 0
    ensures Kept(lots, xc, spot) == lots
    decreases |lots|
  {
    if lots != [] {
      var n := |lots| - 1;
      NoExerciseKeepsAll(lots[..n], xc[..n], spot);
      assert lots == lots[..n] + [lots[n]];
    }
  }

  // ---------------------------------------------------------------- one period

  /** A state built field by field from the opening and the settlement of period j is Period's result. */
  lemma PeriodIs(e: Env, j: int, st: PathState, st': PathState)
    requires ValidSettings(e.settings) && 0 <= j && (j + 1) * 21 <= |e.prices|
    requires var day1 := j * 21;
             var spot := e.prices[Maturity(day1)];
             var n := e.settings.contractSize;
             var accepted := Accepted(e, day1, st.lots);
             var written := PutWritten(e, day1, st.lots);
             var xc := CallStrikes(e, day1, st.lots);
             var exercised := if accepted > 0 then ExercisedCount(xc, spot) else 0;
             var lots1 := if accepted > 0 then Kept(st.lots, xc, spot) else st.lots;
             var cash1 := st.cash + n * CallIncome(e, day1, st.lots) + n * PutIncome(e, day1, st.lots)
                          + (if accepted > 0 then n * CallProceeds(xc, spot) else 0);
             var xp := PutStrike(e, day1, st.lots);
             var putAssigned := written && xp >= spot;
             && st'.lots == (if putAssigned then lots1 + [xp] else lots1)
             && st'.shares == st.shares - n * exercised + (if putAssigned then n else 0)
             && st'.cash == (if putAssigned then (if cash1 - n * xp < 0 then 0 else cash1 - n * xp) else cash1)
             && st'.moneySpent == st.moneySpent + (if putAssigned && cash1 - n * xp < 0 then n * xp - cash1 else 0)
             && st'.missed == st.missed + (if accepted == 0 && !written then 1 else 0)
             && st'.callsOpened == st.callsOpened + accepted
             && st'.callsExercised == st.callsExercised + exercised
             && st'.putsOpened == st.putsOpened + (if written then 1 else 0)
             && st'.putsExercised == st.putsExercised + (if putAssigned then 1 else 0)
    ensures st' == Period(e, j, st)
  {
  }


  lemma KeptLotsAboveMinimum(s: Settings, lots: seq<int>, xc: seq<int>, spot: int)
    requires |xc| == |lots|
    requires LotsAbove(lots, s.minPrice)
    ensures LotsAbove(Kept(lots, xc, spot), s.minPrice)
  {
    SettlementPartition(lots, xc, spot);
    var kept := Kept(lots, xc, spot);
    forall i | 0 <= i < |kept| ensures kept[i] as real >= s.minPrice {
      assert kept[i] in multiset(kept);
      assert kept[i] in multiset(lots);
      assert kept[i] in lots;
    }
  }

  /** Shares stay at n per open lot across a period. */
  lemma PeriodKeepsShares(e: Env, j: int, st: PathState)
    requires ValidEnv(e) && 0 <= j && (j + 1) * 21 <= |e.prices|
    requires st.shares == e.settings.contractSize * |st.lots|
    ensures Period(e, j, st).shares == e.settings.contractSize * |Period(e, j, st).lots|
  {
    var p := Period(e, j, st);
    var day1 := j * 21;
    var spot := e.prices[Maturity(day1)];
    var xc := CallStrikes(e, day1, st.lots);
    var called := Accepted(e, day1, st.lots) > 0;
    var ex := if called then ExercisedCount(xc, spot) else 0;
    var lots1 := if called then Kept(st.lots, xc, spot) else st.lots;
    var putAssigned := PutWritten(e, day1, st.lots) && PutStrike(e, day1, st.lots) >= spot;
    assert |lots1| == |st.lots| - ex;
    assert |p.lots| == |lots1| + (if putAssigned then 1 else 0);
    assert p.shares == st.shares - e.settings.contractSize * ex + (if putAssigned then e.settings.contractSize else 0);
    ShareCount(e.settings.contractSize, |st.lots|, ex, putAssigned);
  }

  /** n shares per lot, after ex lots are sold and one is perhaps bought. */
  lemma ShareCount(n: int, lots: int, ex: int, bought: bool)
    ensures n * lots - n * ex + (if bought then n else 0) == n * (lots - ex + (if bought then 1 else 0))
  {
    MulDistributes(n, lots - ex, if bought then 1 else 0);
    MulDistributes(n, lots, ex);
  }

  /** Money spent grows by the shortfall of an assigned put, and never decreases. */
  lemma PeriodSpending(e: Env, j: int, st: PathState)
    requires ValidSettings(e.settings) && 0 <= j && (j + 1) * 21 <= |e.prices|
    ensures Period(e, j, st).moneySpent >= st.moneySpent
    ensures Period(e, j, st).moneySpent > st.moneySpent ==> Period(e, j, st).cash == 0
  {
  }

  /** Cash stays non-negative across a period. */
  lemma PeriodKeepsCash(e: Env, j: int, st: PathState)
    requires ValidEnv(e) && 0 <= j && (j + 1) * 21 <= |e.prices|
    requires st.cash >= 0
    ensures Period(e, j, st).cash >= 0
  {
    var n := e.settings.contractSize;
    var day1 := j * 21;
    var xc := CallStrikes(e, day1, st.lots);
    MulNonNegative(n, CallIncome(e, day1, st.lots));
    MulNonNegative(n, PutIncome(e, day1, st.lots));
    MulNonNegative(n, CallProceeds(xc, e.prices[Maturity(day1)]));
  }

  /** A period keeps every invariant of a path state. */
  lemma PeriodKeepsConsistent(e: Env, j: int, st: PathState)
    requires ValidEnv(e) && 0 <= j && (j + 1) * 21 <= |e.prices|
    requires Consistent(e.settings, st)
    ensures Consistent(e.settings, Period(e, j, st))
  {
    var day1 := j * 21;
    var spot := e.prices[Maturity(day1)];
    var xc := CallStrikes(e, day1, st.lots);
    PeriodKeepsShares(e, j, st);
    PeriodKeepsCash(e, j, st);
    PeriodSpending(e, j, st);
    AcceptedAreWritten(e, day1, st.lots);
    ExercisedAtMostWritten(xc, spot);
    KeptLotsAboveMinimum(e.settings, st.lots, xc, spot);
  }

  /** Every beginning of a path is a path. */
  lemma PathPrefix(e: Env, states: seq<PathState>, k: nat)
    requires ValidSettings(e.settings) && IsPath(e, states) && 1 <= k <= |states|
    ensures IsPath(e, states[..k])
  {
    var prefix := states[..k];
    forall j | 0 <= j < k - 1 ensures Steps(e, prefix, j) {
      assert Steps(e, states, j);
      assert prefix[j + 1] == states[j + 1] && prefix[j] == states[j];
    }
  }

  /** Every state a path goes through keeps the invariants of Consistent. */
  lemma {:induction false} PathConsistent(e: Env, states: seq<PathState>)
    requires ValidEnv(e) && IsPath(e, states)
    ensures forall j :: 0 <= j < |states| ==> Consistent(e.settings, states[j])
  {
    var k := |states| - 1;
    if k > 0 {
      var prefix := states[..k];
      PathPrefix(e, states, k);
      PathConsistent(e, prefix);
      PeriodKeepsConsistent(e, k - 1, states[k - 1]);
      assert Steps(e, states, k - 1);
      forall j | 0 <= j < |states| ensures Consistent(e.settings, states[j]) {
        if j < k {
          assert states[j] == prefix[j];
        }
      }
    }
  }

  /** A period is counted as missed exactly when it writes neither a call nor a put. */
  lemma PeriodMissed(e: Env, j: int, st: PathState)
    requires ValidSettings(e.settings) && 0 <= j && (j + 1) * 21 <= |e.prices|
    ensures Period(e, j, st).missed == st.missed + (if Active(e, j, st) then 0 else 1)
  {
  }

  /** Each period is either missed or active, never both: missed plus active periods is the number of periods. */
  lemma {:induction false} MissedPlusActive(e: Env, states: seq<PathState>, k: nat)
    requires ValidEnv(e) && IsPath(e, states) && k < |states|
    ensures states[k].missed + ActivePeriods(e, states, k) == k
  {
    if k > 0 {
      MissedPlusActive(e, states, k - 1);
      PeriodMissed(e, k - 1, states[k - 1]);
      assert Steps(e, states, k - 1);
    }
  }

  /** A period that accepts a call writes no put. */
  lemma NoCallAndPutInOnePeriod(e: Env, day1: int, lots: seq<int>)
    requires ValidEnv(e) && 0 <= day1 && day1 + DaysPerPeriod <= |e.prices|
    ensures !(Accepted(e, day1, lots) > 0 && PutWritten(e, day1, lots))
  {
  }

  /**
   * A put is written only when no lot is held, on the first day, or on the
   * fallback, on the day before the deadline; its strike is at least the
   * minimum price and it matures 1 to 20 days later.
   */
  lemma PutRule(e: Env, day1: int, lots: seq<int>)
    requires ValidEnv(e) && 0 <= day1 && day1 + DaysPerPeriod <= |e.prices|
    ensures PutWritten(e, day1, lots) ==>
              var d := PutDay(e.settings, day1, Fallback(e, day1, lots));
              && PutStrike(e, day1, lots) as real >= e.settings.minPrice
              && 1 <= Maturity(day1) - d <= DaysPerPeriod - 1
              && (|lots| == 0 ==> d == day1)
              && (|lots| > 0 ==> Fallback(e, day1, lots) && d == day1 + e.settings.deadline - 1)
    ensures Fallback(e, day1, lots) <==>
              && |lots| > 0
              && e.settings.writePutsIfNoCalls
              && CallWindowEnd(e.settings, day1) - day1 == e.settings.deadline
              && e.settings.deadline < DaysPerPeriod - 1
              && Accepted(e, day1, lots) == 0
  {
  }

  /** Every accepted call brings at least one cent per share. */
  lemma {:induction false} IncomeCoversCalls(e: Env, day1: int, lots: seq<int>, k: nat, end: int)
    requires ValidEnv(e)
    requires 0 <= day1 <= end <= |e.prices| && end <= Maturity(day1) && k <= |lots|
    ensures IncomeAmong(e, day1, lots, k, end) >= OpenedAmong(e, day1, lots, k, end)
  {
    if k > 0 {
      IncomeCoversCalls(e, day1, lots, k - 1, end);
      CallAcceptanceRule(e, day1, lots[k - 1], end);
    }
  }

  /** The counters of one period: calls opened at most the lots held, exercises at most the options written. */
  lemma PeriodCounters(e: Env, j: int, st: PathState)
    requires ValidEnv(e) && 0 <= j && (j + 1) * 21 <= |e.prices|
    ensures var st' := Period(e, j, st);
            && 0 <= st'.callsOpened - st.callsOpened <= |st.lots|
            && 0 <= st'.callsExercised - st.callsExercised <= st'.callsOpened - st.callsOpened
            && 0 <= st'.putsExercised - st.putsExercised <= st'.putsOpened - st.putsOpened <= 1
            && st'.missed - st.missed == (if Active(e, j, st) then 0 else 1)
  {
    var day1 := j * 21;
    var xc := CallStrikes(e, day1, st.lots);
    AcceptedAreWritten(e, day1, st.lots);
    ExercisedAtMostWritten(xc, e.prices[Maturity(day1)]);
  }

  /** A path extended by one more period is still a path, and its last state keeps the invariants. */
  lemma ExtendPath(e: Env, states: seq<PathState>, st': PathState)
    requires ValidEnv(e) && IsPath(e, states)
    requires |states| * 21 <= |e.prices|
    requires Consistent(e.settings, states[|states| - 1])
    requires st' == Period(e, |states| - 1, states[|states| - 1])
    ensures IsPath(e, states + [st'])
    ensures Consistent(e.settings, st')
  {
    PeriodKeepsConsistent(e, |states| - 1, states[|states| - 1]);
    var extended := states + [st'];
    forall j | 0 <= j < |extended| - 1 ensures Steps(e, extended, j) {
      if j < |states| - 1 {
        assert Steps(e, states, j);
      }
    }
  }
}
