/** The value-bet recommendation shown under the results: the outcome whose
    reported value is largest, taken only when that value is positive. */
module Selection {
  import opened PyNumbers
  import opened ValueEngine

  datatype Option<T> = None | Some(value: T)

  /** `o` has the largest value and every outcome listed before it has a
      strictly smaller one: the outcome `max(values, key=values.get)` returns. */
  ghost predicate IsFirstMax(values: PerOutcome, o: Outcome) {
    && (forall k :: values.Get(k) <= values.Get(o))
    && (forall k :: Rank(k) < Rank(o) ==> values.Get(k) < values.Get(o))
  }

  /** Python's `max` over the keys "1", "X", "2" (Home, Draw, Away) keyed by their values: it
      walks the keys in order and moves on only to a strictly larger value. */
  function Best(values: PerOutcome): (o: Outcome)
    ensures IsFirstMax(values, o)
  {
    var first := if values.draw > values.home then Draw else Home;
    if values.away > values.Get(first) then Away else first
  }

  /** The first maximum is unique, so it is exactly what `Best` returns. */
  lemma BestIsFirstMax(values: PerOutcome, o: Outcome)
    ensures IsFirstMax(values, o) <==> o == Best(values)
  {
    if IsFirstMax(values, o) {
      var b := Best(values);
      assert values.Get(o) == values.Get(b);
      assert !(Rank(b) < Rank(o)) && !(Rank(o) < Rank(b));
    }
  }

  /** The recommendation: the best outcome if its value is strictly positive,
      and no bet otherwise. */
  function Recommend(values: PerOutcome): (r: Option<Outcome>)
    ensures r.Some? ==> r.value == Best(values) && values.Get(r.value) > 0.0
    ensures r.None? <==> forall k :: values.Get(k) <= 0.0
  {
    var best := Best(values);
    if values.Get(best) > 0.0 then Some(best) else None
  }

  /** A recommendation made on values rounded to two decimals, read back on
      the exact values: the recommended outcome's exact value is at least half
      a hundredth and no exact value exceeds it by more than a hundredth; with
      no recommendation, no exact value exceeds half a hundredth. */
  lemma RecommendOnRounded(exact: PerOutcome)
    ensures match Recommend(exact.Rounded())
      case Some(o) =>
        && exact.Get(o) >= 0.005
        && (forall k :: exact.Get(k) <= exact.Get(o) + 0.01)
      case None =>
        forall k :: exact.Get(k) <= 0.005
  {
    var reported := exact.Rounded();
    forall k ensures reported.Get(k) == Round2(exact.Get(k)) {
    }
    match Recommend(reported)
    case Some(o) =>
      Round2Sign(exact.Get(o));
    case None =>
      forall k ensures exact.Get(k) <= 0.005 {
        Round2Sign(exact.Get(k));
      }
  }

  /** What the recommendation under the results of `berechne_value` means for
      the exact numbers: a recommended outcome's quote beats its fair odds,
      and its exact value is positive and within a hundredth of the best. */
  lemma RecommendationMeaning(homeGoals: real, awayGoals: real, quote1: real, quoteX: real, quote2: real)
    ensures var quotes := PerOutcome(quote1, quoteX, quote2);
      var exact := Evaluate(homeGoals, awayGoals, quotes);
      match Recommend(BerechneValue(homeGoals, awayGoals, quote1, quoteX, quote2).values)
      case Some(o) =>
        && quotes.Get(o) > exact.fairOdds.Get(o)
        && exact.values.Get(o) >= 0.005
        && (forall k :: exact.values.Get(k) <= exact.values.Get(o) + 0.01)
      case None =>
        forall k :: exact.values.Get(k) <= 0.005
  {
    var exact := Evaluate(homeGoals, awayGoals, PerOutcome(quote1, quoteX, quote2));
    assert BerechneValue(homeGoals, awayGoals, quote1, quoteX, quote2).values == exact.values.Rounded();
    RecommendOnRounded(exact.values);
  }

  /** Of two outcomes with equal values, the one listed later is never
      selected, and so never recommended. */
  lemma TieGoesToEarlierOutcome(values: PerOutcome, a: Outcome, b: Outcome)
    requires Rank(a) < Rank(b) && values.Get(a) == values.Get(b)
    ensures Best(values) != b
    ensures Recommend(values) != Some(b)
  {
  }

  /** Worked examples: a tie between "1" and "X", a tie between "X" and "2",
      and no positive value at all. */
  lemma TieExamples()
    ensures Recommend(PerOutcome(0.1, 0.1, 0.05)) == Some(Home)
    ensures Recommend(PerOutcome(-0.1, 0.2, 0.2)) == Some(Draw)
    ensures Recommend(PerOutcome(0.0, 0.0, 0.0)) == None
  {
  }

  /** The form's defaults: 1.5 and 1.2 expected goals against quotes 2.2,
      3.3 and 3.0 give a goal difference of 0.3, probabilities 0.43 / 0.20 /
      0.37, values -0.05 / -0.34 / 0.11 and a value bet on the away win. */
  lemma DefaultInputs()
    ensures BerechneValue(1.5, 1.2, 2.2, 3.3, 3.0)
      == Report(PerOutcome(0.43, 0.2, 0.37), PerOutcome(2.33, 5.0, 2.7), PerOutcome(-0.05, -0.34, 0.11))
    ensures Recommend(BerechneValue(1.5, 1.2, 2.2, 3.3, 3.0).values) == Some(Away)
  {
    CentralRegion(1.5, 1.2);
  }
}
