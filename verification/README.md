# Tip calculator — Dafny model

A model of the tip calculation of the TipTime Android app
(`MainActivity.calculateTip`). A press of the calculate button reads the
cost of service, the selected service-quality radio button and the two
switches "Round Tip" and "Round Total Bill". It displays a tip and a total
bill, and it may turn one of the switches off.

The model has two modules:

- `Ceiling` (`ceiling.dfy`): rounding up to the next whole currency unit,
  the role of `kotlin.math.ceil`, defined as `-Floor(-x)` on exact reals,
  with its characterisation as the least whole number not below `x`.
- `TipCalculator` (`tip_calculator.dfy`): the tier table, the switches,
  and `CalculateTip`, a pure function from
  `(cost: Option<real>, tier, switches)` to the displayed `(tip, total)`
  and the switches as the calculation leaves them.

`CalculateTip` is tied to two independent descriptions:

- `BillMeets` says what the displayed bill must satisfy for each rounding rule,
  without saying how it is computed. `CalculateTip` satisfies it. The lemma
  `BillMeetsDeterminesBill` shows that nothing else does.
- `RoundingMode` (none, round tip, round total) is the rule a switch setting
  selects. `ModeOf` reads the switches first-match. `SwitchesOf` shows one
  rule, and `ModeOf(SwitchesOf(m)) == m`. After a press with a non-zero cost,
  the switches are `SwitchesOf(ModeOf(before))`, so at most one is on.

The pair `Bill(tip, total)` is what is handed to `displayTipAndTotal`.
The parsed cost is an input: `None` stands for text that
`toDoubleOrNull` does not accept.

The model follows the code on these points:

- The code turns the other switch off only inside the calculation, in the
  branch that is taken. It does not do so when a switch is flipped.
- The code resolves both switches being on by first match: the tip is
  rounded and "Round Total Bill" is turned off.
- The code does not reject a negative cost. The non-negativity facts are
  therefore stated only for costs that are at least zero.

## Model

| member | source | states |
|---|---|---|
| Ceiling.Ceil | app/src/main/java/com/example/tiptime/MainActivity.kt:97 | the rounded-up amount is a whole number and lies in `[x, x + 1)` |
| Ceiling.CeilOfIntegral | app/src/main/java/com/example/tiptime/MainActivity.kt:97 | rounding up a whole number leaves it unchanged, so a tip that is already whole is kept |
| Ceiling.CeilIsLeast | app/src/main/java/com/example/tiptime/MainActivity.kt:103 | no whole number at or above `x` is below the rounded-up amount |
| Ceiling.CeilUnique | app/src/main/java/com/example/tiptime/MainActivity.kt:97-103 | a whole number in `[x, x + 1)` is the rounded-up amount, so rounding up is fully described by its bounds |
| TipCalculator.Percentage | app/src/main/java/com/example/tiptime/MainActivity.kt:72-78 | every tier's percentage lies between 10% and 20%; no selection falls back to 15% |
| TipCalculator.PercentageMonotone | app/src/main/java/com/example/tiptime/MainActivity.kt:72-78 | better service never earns a smaller percentage; no selection earns what average service earns |
| TipCalculator.SwitchesOfModeOf | app/src/main/java/com/example/tiptime/MainActivity.kt:94-106 | a setting with at most one switch on is the setting of the rule `ModeOf` (first-match, lines 94-95 and 101) selects from it, so such settings and rounding rules correspond one to one |
| TipCalculator.SwitchesOf | app/src/main/java/com/example/tiptime/MainActivity.kt:94-106 | each rounding rule has a switch setting with at most one switch on that `ModeOf`, the first-match reading of the switches at lines 94-95 and 101, reads back as that rule |
| TipCalculator.CalculateTip | app/src/main/java/com/example/tiptime/MainActivity.kt:60-110 | absent or zero cost (`HasCost` false, the test at line 66) gives tip 0 and total 0 with the switches untouched; for a parsed cost the bill meets `BillMeets` for the rule `ModeOf` selects, the first switch that is on; the other switch is turned off, so at most one switch is on |
| TipCalculator.BillMeetsDeterminesBill | app/src/main/java/com/example/tiptime/MainActivity.kt:81-106 | any bill meeting the rounding rule's description for a parsed cost is the bill the calculation displays |
| TipCalculator.RoundTipWins | app/src/main/java/com/example/tiptime/MainActivity.kt:94-100 | with both switches on, the outcome is that of round-tip alone and round-total ends off |
| TipCalculator.NonNegativeCost | app/src/main/java/com/example/tiptime/MainActivity.kt:81-106 | for a cost of at least zero, the tip is at least zero and the total at least the cost in every rounding mode |
| TipCalculator.RoundingNeverLowersTotal | app/src/main/java/com/example/tiptime/MainActivity.kt:81-106 | for every parsed cost, negative ones included, the displayed total is never below the unrounded `cost + pct * cost` |
| TipCalculator.CalculateTipIdempotent | app/src/main/java/com/example/tiptime/MainActivity.kt:94-106 | a second press with the same cost and tier reproduces the first press's bill and switches |
| TipCalculator.RepeatedPresses | app/src/main/java/com/example/tiptime/MainActivity.kt:94-106 | any number of presses in a row shows what the first press showed |
| TipCalculator.Examples | app/src/main/java/com/example/tiptime/MainActivity.kt:72-106 | worked cases: 15% of 100 gives 15 / 115; 20% of 100 with the tip rounded gives 20 / 120; 10% of 51 gives 6 / 57 with the tip rounded and 5.1 / 57 with the total rounded; an unparsable cost gives 0 / 0 |

## Left out

- Parsing the text field with `toDoubleOrNull` (app/src/main/java/com/example/tiptime/MainActivity.kt:62-63): a library call. The parsed value is the `Option<real>` input.
- IEEE-754 doubles: amounts are exact reals. So `0.15 * cost` is exact, and `-0.0` is not distinct from `0.0`. `toDoubleOrNull` also accepts "NaN", "Infinity" and "-Infinity"; such a cost passes the zero test, displays NaN or an infinite tip and total, and still turns the other switch off. `Option<real>` has no such values, so the model does not cover them.
- Currency formatting and the result labels in `displayTipAndTotal` (app/src/main/java/com/example/tiptime/MainActivity.kt:116-123): a locale-aware library and UI. Only the pair passed to it is modelled.
- `onCreate` view binding and listener wiring (app/src/main/java/com/example/tiptime/MainActivity.kt:36-55): Android UI plumbing. A press is one application of `CalculateTip`.
- `handleKeyEvent` keyboard hiding (app/src/main/java/com/example/tiptime/MainActivity.kt:128-137): a system service. It computes nothing.
- The commented-out rounding code (app/src/main/java/com/example/tiptime/MainActivity.kt:84-91): dead code.
- Radio button ids: the model uses the `Tier` datatype instead. `Unselected` stands for every id the lookup does not list.
