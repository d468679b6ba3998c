# Reseller calculator — a Dafny model of the fee and profit calculation

The page (`App.tsx`) helps someone who buys a prepaid card loaded with
Vietnamese dong and resells it. It has three number inputs
(`type="number"` fields, whose value the page receives as text): the dong
purchased, the card price and the resale price. From these it derives the
following figures:

- the intermediary fee: 6.5% on top of the card price;
- the activation reduction: 20% of the dong is lost;
- the platform fee: 16% taken from the resale price;
- the final cost, net revenue and profit;
- a profit flag, the margin and the ROI.

The page also builds a two-bar chart ("Money Out" / "Money In") with a
breakdown for each bar. While net revenue is positive it draws a progress
bar whose width is the absolute value of the ROI, capped at 100%. A reset
button empties the three fields.

`calculator.dfy` models this in one module, `Calculator`:

- Field contents are a `RawInput`: `Blank`, `NonNumeric` or `Numeric(v)`.
  They are read the way the page reads them, `Number(x) || 0`. `ToNumber`
  plays JavaScript's `Number` (blank text gives 0, unreadable text gives
  NaN), and `OrZero` plays `|| 0` (NaN and 0 give 0).
- The three percentages are exact reals: 0.065, 0.20 and 0.16.
- `Calculate` is the whole calculation body. It returns a `Figures` value
  with the thirteen fields the source's calculation returns. The page
  itself reads ten of them; `vnAmount`, `isProfitable` and `profitMargin`
  are returned but not displayed. The progress bar commented as showing
  the margin actually shows the ROI.
- `GuardedPercent` is the guarded division used for both margin and ROI.
- `ChartData`, `BarWidth` and `ProgressBar` are the presentation rules built
  on the figures. `Reset` is the reset handler.

Everything is a pure function, as in the source. `Calculate` is a Dafny
function, so equal inputs always give equal figures. No separate lemma is
needed for that.

## Model

| member | source | states |
|---|---|---|
| Calculator.Coerce | App.tsx:21-23 | a numeric field keeps its value; an empty or non-numeric field reads as 0 |
| Calculator.GuardedPercent | App.tsx:40-41 | for a whole of zero or less the result is 0, so the division never fails (its value over a positive whole is given by PercentOfWhole) |
| Calculator.PercentOfWhole | App.tsx:40-41 | over a positive whole the result times the whole is 100 times the part, i.e. the percentage is exact |
| Calculator.Calculate | App.tsx:20-58 | final cost is the price times 1.065 for any sign of the price, and is at least the price when the price is non-negative; usable dong is 80% of the amount, and usable dong plus the reduction is the whole amount; net revenue is 84% of the resale price, net revenue plus the platform fee is the whole resale price, and net revenue is at most the resale price when that price is non-negative; profit is net revenue minus final cost; the profit flag holds exactly when 84% of the resale price exceeds 106.5% of the price; margin and ROI are the guarded percentages of profit over net revenue and over final cost |
| Calculator.Reset | App.tsx:80-84 | all three fields are empty again (as on first render), each reads as 0, and the calculation then gives the all-zero figures |
| Calculator.ChartData | App.tsx:61-78 | there are exactly two bars, "Money Out" with value final cost and "Money In" with value net revenue; for any figures, the "Money Out" breakdown adds up to price + intermediary fee and the "Money In" breakdown to resale price − platform fee |
| Calculator.BarWidth | App.tsx:231 | the width `min(abs(roi), 100)` lies in [0, 100], is never more than abs(roi), and is 100 exactly when abs(roi) is at least 100 |
| Calculator.ProgressBar | App.tsx:227-234 | the bar is drawn exactly when net revenue is positive, and its width is the clamped ROI, within [0, 100] |
| Calculator.ZeroInputsGiveZeroFigures | App.tsx:21-41 | fields that read as 0 (empty, unreadable or zero) give zero final cost, revenue, profit, margin and ROI, and no profit flag |
| Calculator.VnAmountOnlyAffectsVnFigures | App.tsx:21-41 | changing the dong field changes only the three dong figures; profit, margin and ROI do not depend on it |
| Calculator.RoiHasSignOfProfit | App.tsx:38-41 | when final cost is positive, ROI is positive, negative or zero exactly as the profit is |
| Calculator.MarginHasSignOfProfit | App.tsx:38-40 | when net revenue is positive, the margin has the sign of the profit |
| Calculator.RoiAtLeastMinusHundred | App.tsx:34-41 | with a non-negative resale price, ROI is at least −100% |
| Calculator.MarginAtMostHundred | App.tsx:26-40 | with a non-negative card price and positive net revenue, the margin is at most 100%, and exactly 100% only when the card is free |
| Calculator.RoiMonotoneInResale | App.tsx:34-41 | for a fixed card price, a higher resale price never lowers profit or ROI |
| Calculator.MoneyFiguresScale | App.tsx:21-38 | when two forms' card and resale prices read as k times each other's, their final cost, net revenue and profit are k times each other's |
| Calculator.RatiosScaleInvariant | App.tsx:21-41 | when two forms' card and resale prices read as a positive k times each other's, they have the same margin, ROI and profit flag |
| Calculator.ChartBreakdownsAddUp | App.tsx:61-78 | for the figures of any calculation, both bars are exactly the sum of their breakdown entries (the platform fee enters as a negative part) |
| Calculator.ResetClearsChartAndBar | App.tsx:80-84 | after a reset no progress bar is drawn and both chart bars are 0 |
| Calculator.ScenarioProfit | App.tsx:20-58 | 100000 dong, price 50, resale 80: fee 3.25, final cost 53.25, usable dong 80000, platform fee 12.8, net revenue 67.2, profit 13.95, profitable, ROI about 26.2% |
| Calculator.ScenarioEmpty | App.tsx:20-58 | three empty fields give the all-zero figures and no profit |
| Calculator.ScenarioLoss | App.tsx:20-58 | price 100, resale 50: final cost 106.5, net revenue 42, profit −64.5, not profitable, ROI about −60.56%, progress bar width −ROI |
| Calculator.PercentHasSignOfPart | App.tsx:40-41 | a guarded percentage over a positive whole has the sign of its part |
| Calculator.PercentAtLeastMinusHundred | App.tsx:40-41 | a part no smaller than minus the whole gives at least −100% |
| Calculator.PercentAtMostHundred | App.tsx:40-41 | a part no larger than the whole gives at most 100%, and exactly 100% only when it equals a positive whole |
| Calculator.PercentMonotoneInPart | App.tsx:40-41 | over the same whole, a larger part never gives a smaller percentage |
| Calculator.PercentScaleInvariant | App.tsx:40-41 | scaling part and whole by one positive factor keeps the percentage |

## Left out

- Floating point: the source computes in IEEE-754 doubles, and the model uses exact reals. Rounding, `-0`, `Infinity` and overflow are not modelled. The worked examples are therefore exact values, not the doubles the page would show.
- JavaScript's `Number` parsing of the field text: a field is abstracted to empty, unreadable or a finite number. The numeric-literal grammar (hex, exponents, whitespace) is not modelled. The fields are `type="number"` inputs, so the browser already limits what they hold.
- React: the `useState`/`useMemo` hooks, the re-render on each keystroke, the JSX layout and the colour choices (App.tsx:86-315) are presentation only. `handleReset` is modelled as the function that gives the new field contents.
- `formatBRL` and `formatVND` come from `utils`, which is not part of this model. The `roi.toFixed(1)` text and the recharts chart and tooltip widgets are string formatting and a third-party library.
- `components/InputField.tsx` and `components/ResultCard.tsx` are markup and CSS-class mapping with no calculation.
