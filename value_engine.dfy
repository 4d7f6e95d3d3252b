/** The betting-value engine `berechne_value`: a clamped linear guess of the
    home/draw/away probabilities from the expected goals, the fair odds and
    the value of each bookmaker quote. */
module ValueEngine {
  import opened PyNumbers

  /** The three outcomes of a match, in the order the result dictionaries
      list them: home win "1", draw "X", away win "2". */
  datatype Outcome = Home | Draw | Away

  /** Position of an outcome in the dictionaries' iteration order. */
  function Rank(o: Outcome): nat {
    match o
    case Home => 0
    case Draw => 1
    case Away => 2
  }

  /** One number per outcome: a dictionary keyed by "1", "X" and "2". */
  datatype PerOutcome = PerOutcome(home: real, draw: real, away: real) {

    function Get(o: Outcome): real {
      match o
      case Home => home
      case Draw => draw
      case Away => away
    }

    /** The same numbers with home and away exchanged. */
    function Mirror(): PerOutcome {
      PerOutcome(away, draw, home)
    }

    /** Every entry rounded with `round(_, 2)`. */
    function Rounded(): (r: PerOutcome)
      ensures forall o :: -0.005 <= r.Get(o) - Get(o) <= 0.005
    {
      PerOutcome(Round2(home), Round2(draw), Round2(away))
    }
  }

  /** The clamp applied to the home and away probabilities:
      `min(max(x, 0.05), 0.9)`. */
  function WinClamp(x: real): (p: real)
    ensures 0.05 <= p <= 0.9
    ensures 0.05 <= x <= 0.9 ==> p == x
    ensures x < 0.05 ==> p == 0.05
    ensures x > 0.9 ==> p == 0.9
  {
    Min(Max(x, 0.05), 0.9)
  }

  /** The probability estimate from the expected goals of the home and the
      away side. The draw takes whatever the two clamped win probabilities
      leave; the clamps keep it within [0.05, 0.2], so all three are
      positive and they add up to one. */
  function Estimate(homeGoals: real, awayGoals: real): (p: PerOutcome)
    ensures 0.05 <= p.home <= 0.9 && 0.05 <= p.away <= 0.9
    ensures 0.8 <= p.home + p.away <= 0.95
    ensures 0.05 <= p.draw <= 0.2
    ensures p.home + p.draw + p.away == 1.0
  {
    var diff := homeGoals - awayGoals;
    var home := WinClamp(0.4 + 0.1 * diff);
    var away := WinClamp(0.4 - 0.1 * diff);
    PerOutcome(home, 1.0 - home - away, away)
  }

  /** The fair (break-even) decimal odds of an outcome with probability `p`. */
  function Fair(p: real): (f: real)
    requires p != 0.0
    ensures f * p == 1.0
  {
    1.0 / p
  }

  /** The expected net return of a unit stake at decimal odds `quote` on an
      outcome with probability `p`. For a positive probability it is positive
      exactly when the bookmaker pays more than the fair odds, and zero
      exactly at the fair odds. */
  function Value(p: real, quote: real): (v: real)
    ensures p > 0.0 ==> (v > 0.0 <==> quote > Fair(p))
    ensures p > 0.0 ==> (v == 0.0 <==> quote == Fair(p))
  {
    p * quote - 1.0
  }

  /** The numbers `berechne_value` reports: probabilities, fair odds, values. */
  datatype Report = Report(probabilities: PerOutcome, fairOdds: PerOutcome, values: PerOutcome) {

    /** The dictionary `berechne_value` returns: all nine numbers rounded
        with `round(_, 2)`, each within half a hundredth of the exact one. */
    function Rounded(): (r: Report)
      ensures forall o :: -0.005 <= r.probabilities.Get(o) - probabilities.Get(o) <= 0.005
      ensures forall o :: -0.005 <= r.fairOdds.Get(o) - fairOdds.Get(o) <= 0.005
      ensures forall o :: -0.005 <= r.values.Get(o) - values.Get(o) <= 0.005
    {
      Report(probabilities.Rounded(), fairOdds.Rounded(), values.Rounded())
    }
  }

  /** `berechne_value` before its final rounding, for the bookmaker quotes
      `quotes`. */
  function Evaluate(homeGoals: real, awayGoals: real, quotes: PerOutcome): (r: Report)
    ensures r.probabilities == Estimate(homeGoals, awayGoals)
    ensures forall o :: r.fairOdds.Get(o) * r.probabilities.Get(o) == 1.0
    ensures forall o :: r.values.Get(o) > 0.0 <==> quotes.Get(o) > r.fairOdds.Get(o)
    ensures forall o :: r.values.Get(o) == 0.0 <==> quotes.Get(o) == r.fairOdds.Get(o)
  {
    var p := Estimate(homeGoals, awayGoals);
    var fair := PerOutcome(Fair(p.home), Fair(p.draw), Fair(p.away));
    var values := PerOutcome(Value(p.home, quotes.home), Value(p.draw, quotes.draw), Value(p.away, quotes.away));
    Report(p, fair, values)
  }

  /** `berechne_value(erwartete_tore_heim, erwartete_tore_ausw, quote_1,
      quote_x, quote_2)`: every reported number is the exact one rounded to
      two decimals, so it lies within half a hundredth of it, and the
      rounded probabilities keep the bounds of the exact ones. */
  function BerechneValue(homeGoals: real, awayGoals: real, quote1: real, quoteX: real, quote2: real): (r: Report)
    ensures var exact := Evaluate(homeGoals, awayGoals, PerOutcome(quote1, quoteX, quote2));
      && (forall o :: -0.005 <= r.probabilities.Get(o) - exact.probabilities.Get(o) <= 0.005)
      && (forall o :: -0.005 <= r.fairOdds.Get(o) - exact.fairOdds.Get(o) <= 0.005)
      && (forall o :: -0.005 <= r.values.Get(o) - exact.values.Get(o) <= 0.005)
    ensures 0.05 <= r.probabilities.home <= 0.9 && 0.05 <= r.probabilities.away <= 0.9
    ensures 0.05 <= r.probabilities.draw <= 0.2
  {
    var exact := Evaluate(homeGoals, awayGoals, PerOutcome(quote1, quoteX, quote2));
    RoundedProbabilityBounds(exact.probabilities);
    exact.Rounded()
  }

  /** Rounding keeps every probability of an estimate within its bounds,
      because the bounds are themselves whole hundredths. */
  lemma RoundedProbabilityBounds(p: PerOutcome)
    requires 0.05 <= p.home <= 0.9 && 0.05 <= p.away <= 0.9
    requires 0.05 <= p.draw <= 0.2
    ensures var r := p.Rounded();
      0.05 <= r.home <= 0.9 && 0.05 <= r.away <= 0.9 && 0.05 <= r.draw <= 0.2
  {
    Round2OfCents(5);
    Round2OfCents(20);
    Round2OfCents(90);
    assert Cents(5) == 0.05 && Cents(20) == 0.2 && Cents(90) == 0.9;
    Round2Monotone(0.05, p.home);
    Round2Monotone(p.home, 0.9);
    Round2Monotone(0.05, p.away);
    Round2Monotone(p.away, 0.9);
    Round2Monotone(0.05, p.draw);
    Round2Monotone(p.draw, 0.2);
  }

  /** Value grows with the quote whenever the probability is positive. */
  lemma ValueMonotoneInQuote(p: real, quote: real, quote': real)
    requires p > 0.0 && quote < quote'
    ensures Value(p, quote) < Value(p, quote')
  {
    assert Value(p, quote') - Value(p, quote) == p * (quote' - quote);
    assert p * (quote' - quote) > 0.0;
  }

  /** At probability 0.5 the fair odds are 2: a quote of 2.2 is worth +0.10,
      a quote of 1.8 is worth -0.10. */
  lemma ValueExamples()
    ensures Fair(0.5) == 2.0
    ensures Value(0.5, 2.2) == 0.1 && Value(0.5, 1.8) == -0.1
  {
  }

  /** While the goal difference stays within 3.5 no clamp applies:
      0.4 + 0.1d for home, 0.4 - 0.1d for away, and 0.2 for the draw. */
  lemma CentralRegion(homeGoals: real, awayGoals: real)
    requires -3.5 <= homeGoals - awayGoals <= 3.5
    ensures var d := homeGoals - awayGoals;
      Estimate(homeGoals, awayGoals) == PerOutcome(0.4 + 0.1 * d, 0.2, 0.4 - 0.1 * d)
  {
  }

  /** Equal expectations give 0.4 / 0.2 / 0.4. */
  lemma EvenMatch(goals: real)
    ensures Estimate(goals, goals) == PerOutcome(0.4, 0.2, 0.4)
  {
  }

  /** Between a difference of 3.5 and 5 the weaker side sits at its floor of
      0.05 and the draw shrinks linearly; from 5 on the stronger side sits at
      its ceiling of 0.9 and the draw at 0.05. */
  lemma ClampedRegion(homeGoals: real, awayGoals: real)
    ensures var d, p := homeGoals - awayGoals, Estimate(homeGoals, awayGoals);
      && (3.5 < d <= 5.0 ==> p == PerOutcome(0.4 + 0.1 * d, 0.55 - 0.1 * d, 0.05))
      && (5.0 <= d ==> p == PerOutcome(0.9, 0.05, 0.05))
      && (-5.0 <= d < -3.5 ==> p == PerOutcome(0.05, 0.55 + 0.1 * d, 0.4 - 0.1 * d))
      && (d <= -5.0 ==> p == PerOutcome(0.05, 0.05, 0.9))
  {
  }

  /** The bounds of `Estimate` are tight: every home probability in
      [0.05, 0.9] is the estimate for some expected goals. */
  lemma HomeRangeAttained(t: real)
    requires 0.05 <= t <= 0.9
    ensures exists homeGoals: real, awayGoals: real :: Estimate(homeGoals, awayGoals).home == t
  {
    var diff := 10.0 * t - 4.0;
    assert Estimate(diff, 0.0).home == t;
  }

  /** Every draw probability in [0.05, 0.2] is the estimate for some expected
      goals. */
  lemma DrawRangeAttained(t: real)
    requires 0.05 <= t <= 0.2
    ensures exists homeGoals: real, awayGoals: real :: Estimate(homeGoals, awayGoals).draw == t
  {
    var diff := 5.5 - 10.0 * t;
    assert Estimate(diff, 0.0).draw == t;
  }

  /** Exchanging the two sides exchanges the home and away probabilities and
      keeps the draw. */
  lemma Symmetry(homeGoals: real, awayGoals: real)
    ensures Estimate(awayGoals, homeGoals) == Estimate(homeGoals, awayGoals).Mirror()
  {
  }

  /** A larger goal difference never lowers the home probability nor raises
      the away probability. */
  lemma Monotone(homeGoals: real, awayGoals: real, homeGoals': real, awayGoals': real)
    requires homeGoals - awayGoals <= homeGoals' - awayGoals'
    ensures Estimate(homeGoals, awayGoals).home <= Estimate(homeGoals', awayGoals').home
    ensures Estimate(homeGoals, awayGoals).away >= Estimate(homeGoals', awayGoals').away
  {
  }

  /** A more lopsided match never has a likelier draw. */
  lemma DrawShrinksWithMargin(homeGoals: real, awayGoals: real, homeGoals': real, awayGoals': real)
    requires var d, d' := homeGoals - awayGoals, homeGoals' - awayGoals';
      (if d < 0.0 then -d else d) <= (if d' < 0.0 then -d' else d')
    ensures Estimate(homeGoals, awayGoals).draw >= Estimate(homeGoals', awayGoals').draw
  {
  }
}
