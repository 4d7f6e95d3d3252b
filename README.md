# Football value-bet engine, in Dafny

This project models the calculation core of a small football value-bet
calculator, `berechne_value` in `app.py`, and the value-bet recommendation
shown under its results.

`berechne_value` takes the expected goals of the home and the away side and
three decimal bookmaker quotes: home win "1", draw "X" and away win "2".
From the goal difference it guesses a home-win and an away-win probability
with a clamped linear formula. The draw takes the rest. For each outcome it
then computes the fair odds `1/p` and the value `p·quote − 1`. It reports all
nine numbers rounded to two decimals. The recommendation picks the outcome
with the largest reported value. Ties go to the first outcome in the order
"1", "X", "2". It names that outcome only when its value is strictly
positive.

Everything here is pure, so the model uses datatypes, functions and lemmas
over exact `real` numbers:

- `PyNumbers` (`py_numbers.dfy`) holds Python's `min`, `max` and
  `round(x, 2)`.
- `ValueEngine` (`value_engine.dfy`) holds the outcomes, the per-outcome
  dictionaries, the probability estimate, fair odds, values and
  `BerechneValue`.
- `Selection` (`selection.dfy`) holds the recommendation. It is lifted out of
  the user-interface block as a function of the three reported values.

Results proved about the code:

- The clamps on home and away already keep the draw probability within
  [0.05, 0.2], because the home and away probabilities always add up to
  between 0.8 and 0.95.
- So all three probabilities are positive and add up to exactly one.
- None of the three fair-odds divisions can divide by zero.

The draw probability is not clamped itself. It is whatever the clamped home
and away probabilities leave. Even so it can never go negative or above one
(`Estimate`, `ClampedRegion`).

## Model

| member | source | states |
|---|---|---|
| `PyNumbers.Max` | app.py:31-32 | `max(a, b)` is one of its arguments and at least both |
| `PyNumbers.Min` | app.py:31-32 | `min(a, b)` is one of its arguments and at most both |
| `PyNumbers.RoundHalfEven` | app.py:46-48 | the result is an integer within 1/2 of the input; on an exact tie it is the even one |
| `PyNumbers.Round2` | app.py:46-48 | `round(x, 2)` lies within 0.005 of `x` |
| `PyNumbers.Round2IsCents` | app.py:46-48 | `round(x, 2)` is a whole number of hundredths |
| `PyNumbers.Round2Nearest` | app.py:46-48 | no whole number of hundredths is closer to `x` than `round(x, 2)` |
| `PyNumbers.Round2Monotone` | app.py:46-48 | rounding to two decimals never reorders two numbers |
| `PyNumbers.Round2OfCents` | app.py:46-48 | a number that is already whole hundredths is left unchanged by rounding |
| `PyNumbers.Round2Sign` | app.py:46-48 | a rounded value is positive only if the exact value is at least 0.005; a rounded value at most zero comes from an exact value at most 0.005 |
| `ValueEngine.Report.Rounded` | app.py:45-49 | the returned dictionary holds all nine numbers, each rounded to within 0.005 of the exact probability, fair odd or value |
| `ValueEngine.PerOutcome.Rounded` | app.py:46-48 | each rounded entry of a result dictionary lies within 0.005 of the exact entry |
| `ValueEngine.WinClamp` | app.py:31-32 | `min(max(x, 0.05), 0.9)` lies in [0.05, 0.9]; it is `x` inside that range, 0.05 below it and 0.9 above it |
| `ValueEngine.Estimate` | app.py:28-33 | home and away probabilities lie in [0.05, 0.9]; their sum lies in [0.8, 0.95]; the draw lies in [0.05, 0.2]; the three add up to exactly 1 |
| `ValueEngine.Fair` | app.py:36-38 | the fair odds times the probability is exactly 1 |
| `ValueEngine.Evaluate` | app.py:28-43 | for every outcome the divisions are defined and `fair·p = 1`; the value is positive exactly when the quote exceeds the fair odds, and zero exactly at the fair odds |
| `ValueEngine.BerechneValue` | app.py:26-49 | every reported probability, fair odd and value lies within 0.005 of the exact one; the rounded probabilities keep the bounds [0.05, 0.9] and [0.05, 0.2] |
| `ValueEngine.RoundedProbabilityBounds` | app.py:46 | rounding to two decimals keeps probabilities in [0.05, 0.9] (home, away) and [0.05, 0.2] (draw) |
| `ValueEngine.Value` | app.py:41-43 | for a positive probability, the value `p·quote − 1` is positive iff the quote exceeds the fair odds `1/p`, and zero iff the quote equals them (see also `ValueMonotoneInQuote`) |
| `ValueEngine.ValueMonotoneInQuote` | app.py:41-43 | for a positive probability, a higher quote gives a strictly higher value |
| `ValueEngine.ValueExamples` | app.py:36-43 | probability 0.5 has fair odds 2; quote 2.2 gives value +0.10 and quote 1.8 gives −0.10 |
| `ValueEngine.CentralRegion` | app.py:28-33 | for a goal difference d between −3.5 and 3.5 the probabilities are 0.4 + 0.1d, 0.2 and 0.4 − 0.1d |
| `ValueEngine.EvenMatch` | app.py:28-33 | equal expected goals give 0.4 / 0.2 / 0.4 |
| `ValueEngine.ClampedRegion` | app.py:28-33 | for 3.5 < d ≤ 5 the probabilities are 0.4 + 0.1d, 0.55 − 0.1d and 0.05; for d ≥ 5 they are 0.9 / 0.05 / 0.05; the mirror images hold for negative d |
| `ValueEngine.HomeRangeAttained` | app.py:28-31 | every home probability in [0.05, 0.9] is reached by some expected goals, so the bounds of `Estimate` are tight |
| `ValueEngine.DrawRangeAttained` | app.py:28-33 | every draw probability in [0.05, 0.2] is reached by some expected goals, so the draw bounds are tight |
| `ValueEngine.Symmetry` | app.py:28-33 | swapping home and away expected goals swaps the home and away probabilities and keeps the draw |
| `ValueEngine.Monotone` | app.py:31-32 | a larger goal difference never lowers the home probability and never raises the away probability |
| `ValueEngine.DrawShrinksWithMargin` | app.py:31-33 | a larger absolute goal difference never raises the draw probability |
| `Selection.Best` | app.py:90 | the selected outcome has a value at least that of every outcome, and every outcome before it in the order "1", "X", "2" has a strictly smaller value |
| `Selection.BestIsFirstMax` | app.py:90 | an outcome is the first maximum if and only if it is the one selected |
| `Selection.Recommend` | app.py:90-94 | a bet is reported only on the selected outcome and only if its value is positive; no bet is reported exactly when no value is positive |
| `Selection.RecommendOnRounded` | app.py:90-91 | for any three exact values, a bet recommended on their rounded values has an exact value of at least 0.005 within 0.01 of the largest; with no recommendation, every exact value is at most 0.005 |
| `Selection.RecommendationMeaning` | app.py:41-94 | a bet recommended on the rounded values has an exact value of at least 0.005 and a quote above its fair odds, and lies within 0.01 of the best exact value; with no recommendation, every exact value is at most 0.005 |
| `Selection.TieGoesToEarlierOutcome` | app.py:90-94 | of any two outcomes with equal values, the one later in the order "1", "X", "2" is never selected and never recommended |
| `Selection.TieExamples` | app.py:90-94 | examples: values 0.1 / 0.1 / 0.05 recommend "1"; −0.1 / 0.2 / 0.2 recommend "X"; all zero gives no bet |
| `Selection.DefaultInputs` | app.py:61-94 | the form's defaults (1.5, 1.2, 2.2, 3.3, 3.0) give probabilities 0.43 / 0.20 / 0.37, fair odds 2.33 / 5.00 / 2.70, values −0.05 / −0.34 / 0.11, and a value bet on "2" |

## Left out

- The Streamlit user interface (app.py:54-89 and the `st.*` calls at 92-94) is presentation only. Only the selection rule at 90-91 is modelled, as `Selection.Recommend`.
- The league list `ligen` (app.py:11-21) is shown to the user and never used in the calculation.
- The `pandas`, `numpy` and `sklearn` imports (app.py:4-6) are never used. The code has no classifier-based estimator and no two-way estimator from expected-goal ratios, so neither is modelled.
- Numbers are exact reals, not IEEE-754 doubles. `PyNumbers.Round2` rounds the exact real half to even. Python rounds the nearest binary double, so the two can differ on a decimal that lies exactly halfway between two hundredths.
- The model takes the expected goals and the quotes as given. The form does not bound them and neither does the model.
