/** The negotiation decision engine: given a listed rate, the carrier's offer,
    the round number and optional market-average and broker-minimum figures,
    decide whether to accept, counter or reject, and compute the counter.
    It negotiates downward from 15% below the market average. Rates are
    exact reals; the engine holds no state beyond its constants. */
module NegotiationPolicy {
  import opened Wrappers

  /** `NegotiationOutcome`. `MaxRoundsReached` exists in the enum but is
      never produced by `Evaluate`. */
  datatype Outcome = Accept | Counter | Reject | MaxRoundsReached

  // The constants set once by the policy's constructor.
  const MaxRounds: int := 3
  const MarketAverageMultiplier: real := 0.85
  const BrokerMinimumMultiplier: real := 0.85
  const FairMarketMultiplier: real := 1.0
  const FirstCounterMovePercentage: real := 0.30
  const FinalCounterMovePercentage: real := 0.80
  /** The round-2 move, written as a literal in the counter formula. */
  const SecondCounterMovePercentage: real := 0.60

  /** Which human-readable message accompanies a verdict, with the figure
      the message quotes. */
  datatype Message =
    | BelowMinimum(minimum: real)
    | ExcellentRate(rate: real)
    | FinalRoundAccepted(rate: real)
    | MaxRoundsNoAgreement
    | CounterProposed(amount: int)

  /** The dictionary `evaluate_offer` returns. `acceptedRate` is the key
      present only on acceptance; `counterOffer` is `None` unless countering. */
  datatype Evaluation = Evaluation(
    outcome: Outcome,
    message: Message,
    marketAverage: real,
    initialOffer: real,
    fairMarketRate: real,
    brokerMinimum: real,
    counterOffer: Option<int>,
    round: int,
    maxRounds: int,
    acceptedRate: Option<real>)

  /** `x` lies between `a` and `b`, in either order. */
  predicate Between(x: real, a: real, b: real) {
    (a <= x <= b) || (b <= x <= a)
  }

  /** Python's `round(x)` on a float: the nearest integer, ties to even. */
  function RoundHalfEven(x: real): (n: int)
    ensures -0.5 <= n as real - x <= 0.5
    ensures (n as real - x == 0.5 || x - n as real == 0.5) ==> n % 2 == 0
  {
    var f := x.Floor;
    var fraction := x - f as real;
    if fraction < 0.5 then f
    else if fraction > 0.5 then f + 1
    else if f % 2 == 0 then f
    else f + 1
  }

  /** `_round_to_nearest_10`: `round(amount / 10) * 10`. */
  function RoundToNearest10(amount: real): (r: int)
    ensures r % 10 == 0
    ensures -5.0 <= r as real - amount <= 5.0
    ensures (r as real - amount == 5.0 || amount - r as real == 5.0) ==> r % 20 == 0
  {
    RoundHalfEven(amount / 10.0) * 10
  }

  /** `min(max(c, lo), hi)`: never below `lo` unless `lo > hi`, never above `hi`. */
  function Clamp(c: real, lo: real, hi: real): (r: real)
    ensures r <= hi
    ensures lo <= hi ==> lo <= r
    ensures lo <= c <= hi ==> r == c
    ensures r == c || r == lo || r == hi
    ensures c < lo <= hi ==> r == lo
    ensures hi < c || hi < lo ==> r == hi
  {
    var raised := if c >= lo then c else lo;
    if raised <= hi then raised else hi
  }

  /** The counter before clamping. Round 1 moves part of the way from our
      initial offer toward the carrier's offer; later rounds move part of the
      way from the initial offer toward the fair market rate and ignore the
      carrier's offer altogether. */
  function RawCounter(initialOffer: real, carrierOffer: real, roundNumber: int, fairMarketRate: real): (c: real)
    ensures roundNumber == 1 ==> Between(c, initialOffer, carrierOffer)
    ensures roundNumber != 1 ==> Between(c, initialOffer, fairMarketRate)
  {
    if roundNumber == 1 then
      initialOffer + (carrierOffer - initialOffer) * FirstCounterMovePercentage
    else if roundNumber == 2 then
      initialOffer + (fairMarketRate - initialOffer) * SecondCounterMovePercentage
    else
      initialOffer + (fairMarketRate - initialOffer) * FinalCounterMovePercentage
  }

  /** `_calculate_3_round_counter`: the raw counter, clamped to
      [brokerMinimum, fairMarketRate], rounded to the nearest 10. */
  function Counter3Round(initialOffer: real, carrierOffer: real, roundNumber: int,
                         fairMarketRate: real, brokerMinimum: real): (r: int)
    ensures r % 10 == 0
    ensures r as real <= fairMarketRate + 5.0
    ensures brokerMinimum <= fairMarketRate ==> brokerMinimum - 5.0 <= r as real
    ensures roundNumber != 1 && brokerMinimum <= initialOffer <= fairMarketRate ==>
              -5.0 <= r as real - RawCounter(initialOffer, carrierOffer, roundNumber, fairMarketRate) <= 5.0
  {
    var clamped := Clamp(RawCounter(initialOffer, carrierOffer, roundNumber, fairMarketRate),
                         brokerMinimum, fairMarketRate);
    RoundToNearest10(clamped)
  }

  /** The market average after defaulting to the listed rate. */
  function MarketAverageOrDefault(listedRate: real, marketAverage: Option<real>): real {
    marketAverage.GetOr(listedRate)
  }

  /** The broker minimum after defaulting to 85% of the listed rate. */
  function BrokerMinimumOrDefault(listedRate: real, brokerMinimum: Option<real>): real {
    brokerMinimum.GetOr(listedRate * BrokerMinimumMultiplier)
  }

  /** `evaluate_offer`: reject below the minimum, then accept at or below the
      initial offer, then accept-or-reject in a final round, else counter. */
  function Evaluate(listedRate: real, offer: real, roundNumber: int,
                    marketAverage: Option<real>, brokerMinimum: Option<real>): (e: Evaluation)
    // defaults and derived figures
    ensures e.marketAverage == MarketAverageOrDefault(listedRate, marketAverage)
    ensures e.brokerMinimum == BrokerMinimumOrDefault(listedRate, brokerMinimum)
    ensures e.initialOffer == e.marketAverage * 0.85 && e.fairMarketRate == listedRate
    ensures e.round == roundNumber && e.maxRounds == 3
    // the decision rule, branch by branch
    ensures offer < e.brokerMinimum ==> e.outcome == Reject && e.counterOffer == None
    ensures e.outcome == Accept <==>
              e.brokerMinimum <= offer &&
              (offer <= e.initialOffer || (roundNumber >= 3 && offer <= e.fairMarketRate))
    ensures e.outcome == Counter <==>
              e.brokerMinimum <= offer && e.initialOffer < offer && roundNumber < 3
    ensures e.outcome == Accept || e.outcome == Counter || e.outcome == Reject
    // what accompanies each outcome
    ensures e.acceptedRate == (if e.outcome == Accept then Some(offer) else None)
    ensures e.counterOffer.Some? <==> e.outcome == Counter
    ensures e.outcome == Counter ==>
              e.counterOffer.value % 10 == 0 &&
              e.counterOffer.value == Counter3Round(e.initialOffer, offer, roundNumber, e.fairMarketRate, e.brokerMinimum)
  {
    var ma := MarketAverageOrDefault(listedRate, marketAverage);
    var bm := BrokerMinimumOrDefault(listedRate, brokerMinimum);
    var initial := ma * MarketAverageMultiplier;
    var fair := listedRate * FairMarketMultiplier;
    if offer < bm then
      Evaluation(Reject, BelowMinimum(bm), ma, initial, fair, bm, None, roundNumber, MaxRounds, None)
    else if offer <= initial then
      Evaluation(Accept, ExcellentRate(offer), ma, initial, fair, bm, None, roundNumber, MaxRounds, Some(offer))
    else if roundNumber >= MaxRounds then
      if offer <= fair then
        Evaluation(Accept, FinalRoundAccepted(offer), ma, initial, fair, bm, None, roundNumber, MaxRounds, Some(offer))
      else
        Evaluation(Reject, MaxRoundsNoAgreement, ma, initial, fair, bm, None, roundNumber, MaxRounds, None)
    else
      var counter := Counter3Round(initial, offer, roundNumber, fair, bm);
      Evaluation(Counter, CounterProposed(counter), ma, initial, fair, bm, Some(counter), roundNumber, MaxRounds, None)
  }

  /** The multipliers reported under "policy" by the summary. */
  datatype PolicyParameters = PolicyParameters(
    marketAverageMultiplier: real,
    brokerMinimumMultiplier: real,
    fairMarketMultiplier: real,
    firstCounterMovePercentage: real,
    finalCounterMovePercentage: real)

  /** The dictionary `get_negotiation_summary` returns, without its
      strategy-name and description strings. */
  datatype Summary = Summary(
    listedRate: real,
    marketAverage: real,
    initialOffer: real,
    fairMarketRate: real,
    brokerMinimum: real,
    maxRounds: int,
    policy: PolicyParameters)

  /** `get_negotiation_summary`: the figures an evaluation with a default
      broker minimum would use, for display. */
  function NegotiationSummary(listedRate: real, marketAverage: Option<real>): (s: Summary)
    ensures s.listedRate == listedRate && s.maxRounds == 3
    ensures forall offer: real, roundNumber: int ::
              var e := Evaluate(listedRate, offer, roundNumber, marketAverage, None);
              e.marketAverage == s.marketAverage && e.initialOffer == s.initialOffer &&
              e.fairMarketRate == s.fairMarketRate && e.brokerMinimum == s.brokerMinimum &&
              e.maxRounds == s.maxRounds
    ensures s.policy == PolicyParameters(0.85, 0.85, 1.0, 0.30, 0.80)
  {
    var ma := MarketAverageOrDefault(listedRate, marketAverage);
    Summary(listedRate, ma, ma * MarketAverageMultiplier, listedRate * FairMarketMultiplier,
            listedRate * BrokerMinimumMultiplier, MaxRounds,
            PolicyParameters(MarketAverageMultiplier, BrokerMinimumMultiplier, FairMarketMultiplier,
                             FirstCounterMovePercentage, FinalCounterMovePercentage))
  }

  // ---------------------------------------------------------------------
  // Properties of the decision rule

  /** Under the defaults the initial offer equals the broker minimum, so the
      accept-low branch fires only for an offer of exactly 85% of the listed
      rate. */
  lemma DefaultsAcceptLowOnlyAtMinimum(listedRate: real, offer: real, roundNumber: int)
    ensures var e := Evaluate(listedRate, offer, roundNumber, None, None);
            e.initialOffer == e.brokerMinimum == listedRate * 0.85 &&
            (e.message == ExcellentRate(offer) <==> offer == listedRate * 0.85)
  {
  }

  /** A final round never counters: the offer is accepted exactly when it is
      at least the minimum and at most the fair market rate or the initial
      offer. */
  lemma FinalRoundAcceptOrReject(listedRate: real, offer: real, roundNumber: int,
                                 marketAverage: Option<real>, brokerMinimum: Option<real>)
    requires roundNumber >= 3
    ensures var e := Evaluate(listedRate, offer, roundNumber, marketAverage, brokerMinimum);
            e.outcome != Counter && e.counterOffer == None &&
            (e.outcome == Accept <==>
               e.brokerMinimum <= offer && (offer <= e.fairMarketRate || offer <= e.initialOffer))
  {
  }

  /** The counter each round proposes, before rounding: round 1 moves 30% of
      the gap to the carrier's offer, round 2 moves 60% of the gap to the fair
      market rate. The 80% formula written for round 3 is reached only by a
      round number of 0 or below, since round 3 and later never counter. */
  lemma CounterFormula(listedRate: real, offer: real, roundNumber: int,
                       marketAverage: Option<real>, brokerMinimum: Option<real>)
    requires Evaluate(listedRate, offer, roundNumber, marketAverage, brokerMinimum).outcome == Counter
    ensures var e := Evaluate(listedRate, offer, roundNumber, marketAverage, brokerMinimum);
            var i := e.initialOffer;
            roundNumber < 3 &&
            e.counterOffer == Some(RoundToNearest10(Clamp(
              if roundNumber == 1 then i + 0.30 * (offer - i)
              else if roundNumber == 2 then i + 0.60 * (e.fairMarketRate - i)
              else i + 0.80 * (e.fairMarketRate - i),
              e.brokerMinimum, e.fairMarketRate)))
  {
    var e := Evaluate(listedRate, offer, roundNumber, marketAverage, brokerMinimum);
    var i := e.initialOffer;
    var target := if roundNumber == 1 then i + 0.30 * (offer - i)
                  else if roundNumber == 2 then i + 0.60 * (e.fairMarketRate - i)
                  else i + 0.80 * (e.fairMarketRate - i);
    assert RawCounter(i, offer, roundNumber, e.fairMarketRate) == target;
    assert e.counterOffer.value == Counter3Round(i, offer, roundNumber, e.fairMarketRate, e.brokerMinimum);
  }

  /** With the broker minimum at or below the fair market rate, a counter is
      a multiple of 10 within 5 of the band [brokerMinimum, fairMarketRate]. */
  lemma CounterWithinBand(listedRate: real, offer: real, roundNumber: int,
                          marketAverage: Option<real>, brokerMinimum: Option<real>)
    requires BrokerMinimumOrDefault(listedRate, brokerMinimum) <= listedRate
    requires Evaluate(listedRate, offer, roundNumber, marketAverage, brokerMinimum).outcome == Counter
    ensures var e := Evaluate(listedRate, offer, roundNumber, marketAverage, brokerMinimum);
            var c := e.counterOffer.value as real;
            e.counterOffer.value % 10 == 0 &&
            e.brokerMinimum - 5.0 <= c <= e.fairMarketRate + 5.0
  {
  }

  /** The round-2 counter does not depend on the carrier's offer. */
  lemma RoundTwoCounterIgnoresOffer(listedRate: real, offer1: real, offer2: real,
                                    marketAverage: Option<real>, brokerMinimum: Option<real>)
    requires Evaluate(listedRate, offer1, 2, marketAverage, brokerMinimum).outcome == Counter
    requires Evaluate(listedRate, offer2, 2, marketAverage, brokerMinimum).outcome == Counter
    ensures Evaluate(listedRate, offer1, 2, marketAverage, brokerMinimum).counterOffer ==
            Evaluate(listedRate, offer2, 2, marketAverage, brokerMinimum).counterOffer
  {
  }

  /** Under the defaults, a listed rate of 2000 and an offer of 1750 draw a
      round-2 counter of 1880: more than the carrier offered. */
  lemma CounterCanExceedOffer()
    ensures Evaluate(2000.0, 1750.0, 2, None, None).counterOffer == Some(1880)
  {
    assert RoundHalfEven(188.0) == 188;
  }

  /** Counters are not monotone across rounds: for a listed rate of 2000 and
      an offer of 3000, round 1 counters 2000 and round 2 counters 1880. */
  lemma CountersNotMonotone()
    ensures Evaluate(2000.0, 3000.0, 1, None, None).counterOffer == Some(2000)
    ensures Evaluate(2000.0, 3000.0, 2, None, None).counterOffer == Some(1880)
  {
    assert RoundHalfEven(200.0) == 200;
    assert RoundHalfEven(188.0) == 188;
  }

  /** Python's `round` sends halves to the even neighbour: 1625 becomes 1620
      and 1635 becomes 1640. */
  lemma RoundsHalfToEven()
    ensures RoundToNearest10(1625.0) == 1620 && RoundToNearest10(1635.0) == 1640
  {
    assert RoundHalfEven(162.5) == 162;
    assert RoundHalfEven(163.5) == 164;
  }
}
