# BankRetention AI: the deterministic logic of the churn dashboard, in Dafny

BankRetention AI is a Streamlit dashboard over a bank's customer-churn classifier.
It has two tabs. The *Dashboard General* tab shows key figures over the historical
customer dataset. The *Simulador de riesgos* tab collects one customer's ten features
from side-panel controls. It scores that customer with the classifier, shows the churn
probability on a gauge with a three-tier diagnosis, and charts the classifier's
feature importances.

This project models the deterministic logic of `app.py` as pure Dafny functions over
plain values, with lemmas about them:

- `RiskPresenter` (`risk_presenter.dfy`) covers the gauge value and the threshold
  marker (`p * 100`), the HIGH / MEDIUM / LOW ladder on the churn probability, and the
  lines of the diagnosis panel. The panel lines include the reassurance sentence, which
  the script writes after the whole ladder.
- `AggregateView` (`aggregate_view.dfy`) covers the four key figures over the dataset:
  total customers, churned customers, churn rate in percent, and the balance held by
  churned customers. It also models the script's uncaught division by zero on an empty
  dataset.
- `FeatureImportance` (`feature_importance.dfy`) covers the ten fixed labels. They are
  zipped by position with the importance vector, both sides are cut to the shorter
  length, and the result is sorted by ascending weight.
- `ScenarioForm` (`scenario_form.dfy`) covers the ten side-panel controls (sliders,
  number inputs, select boxes) with their ranges and defaults. It also covers the
  customer record they produce and the one-row frame under the column names the
  classifier expects.

The classifier is opaque, so the churn probability and the importance vector are
parameters. Probabilities, balances and weights are Dafny `real`s.

Points to note about the script:

- The low-risk branch is not silent. The reassurance line at `app.py:160` is outside
  the `else`, so every tier writes it (`Diagnosis`, `HighRiskAlsoReassures`).
- "Has credit card" and "is active member" are the integers 1 and 0, not booleans.
  The select boxes offer `(1, 0)`, so 1 is the default.
- A churned row is one whose `Exited` equals 1. A row with any other value counts as
  retained.
- The importance vector need not have ten entries. Both sides are truncated to the
  shorter length.

## Model

| member | source | states |
|---|---|---|
| `RiskPresenter.Verdict` | app.py:150-159 | The tier is HIGH iff p > 0.7, MEDIUM iff 0.3 < p <= 0.7, and LOW iff p <= 0.3. Since these are three iff's, exactly one tier holds for every p. |
| `RiskPresenter.VerdictMonotone` | app.py:150-159 | If p1 <= p2, then the tier for p2 ranks at least as high as the tier for p1. |
| `RiskPresenter.VerdictBoundaries` | app.py:150-159 | 0.71 maps to HIGH, 0.7 to MEDIUM, and 0.3 and 0.29 to LOW. The boundaries are exact. |
| `RiskPresenter.Diagnosis` | app.py:150-160 | The panel opens with the banner of the verdict's tier and always ends with the reassurance line. Above 0.7 it is exactly the HIGH banner, the leave explanation, the "Contactar inmediatamente" recommendation and the reassurance. In (0.3, 0.7] it is exactly the MEDIUM banner, the uncertainty explanation, the "Monitorear" recommendation and the reassurance. At or below 0.3 it is exactly the LOW banner and the reassurance. |
| `RiskPresenter.HighRiskAlsoReassures` | app.py:150-160 | Above 0.7 the panel says both that the customer is likely to leave and that they look loyal and stable. |
| `RiskPresenter.OneBanner` | app.py:150-159 | A tier's banner appears in the panel iff that tier is the verdict. |
| `RiskPresenter.Percent` | app.py:130 | The gauge value divided by 100 gives back the probability. For 0 <= p <= 1 it lies in [0, 100]. |
| `RiskPresenter.GaugeOf` | app.py:128-142 | The needle and the threshold marker hold the same value, p * 100. For 0 <= p <= 1 both lie in [0, 100]. |
| `RiskPresenter.VerdictMatchesGauge` | app.py:135-159 | The verdict is HIGH / MEDIUM / LOW iff the needle is in the red (> 70) / yellow (30, 70] / green (<= 30) band, as `BandOf` assigns the bands. |
| `RiskPresenter.ScenarioAt82` | app.py:125-160 | A probability of 0.82 gives HIGH, a gauge at 82 with its marker at 82, and the full high-risk panel. |
| `AggregateView.ChurnedRows` | app.py:47 | The filter keeps only rows with Exited == 1. It keeps every such row and is never longer than the dataset. |
| `AggregateView.ChurnedRowsMultiplicity` | app.py:47 | Each churned row occurs in the filter exactly as often as in the dataset. Every other row occurs zero times. |
| `AggregateView.ChurnedRowsCount` | app.py:47 | The filter's length equals the reference count, which adds one per row with Exited == 1. |
| `AggregateView.CountsPartition` | app.py:46-47 | The churned and retained reference counts add up to the number of rows. |
| `AggregateView.TotalClients` | app.py:46 | The total is the churned count plus the retained count, so every customer is counted once. |
| `AggregateView.NumChurned` | app.py:47 | The churned count equals the number of rows with Exited == 1, counted by the reference count. It is at most the total, and zero iff no row has Exited == 1. |
| `AggregateView.Percentage` | app.py:48 | For 0 <= part <= whole with whole > 0, pct * whole == part * 100, and pct lies in [0, 100]. |
| `AggregateView.ChurnRate` | app.py:48 | On a non-empty dataset, rate * total == churned * 100, and the rate lies in [0, 100]. |
| `AggregateView.LostBalance` | app.py:49 | The lost balance equals the masked sum over all rows. It is not negative when no balance is. The proofs are in `LostBalanceIsMasked` and `LostBalanceNonNegative`, and additivity is in `LostBalanceAppend`. |
| `AggregateView.LostBalanceIsMasked` | app.py:49 | The lost balance equals the sum over all rows of the balance when Exited == 1 and 0 otherwise. |
| `AggregateView.LostBalanceNonNegative` | app.py:49 | If no balance is negative, the lost balance is not negative. |
| `AggregateView.NumChurnedAppend` | app.py:47 | The churned count of two concatenated datasets is the sum of their counts. |
| `AggregateView.LostBalanceAppend` | app.py:49 | The lost balance of two concatenated datasets is the sum of their lost balances. |
| `AggregateView.RetainedRowContributesNothing` | app.py:47-49 | Inserting a non-churned row anywhere changes neither the churned count nor the lost balance. |
| `AggregateView.RateExample` | app.py:46-48 | 10000 customers with 2037 churned give a rate of 20.37. |
| `AggregateView.Summarize` | app.py:46-49 | An empty dataset gives a ZeroDivision error, and only an empty one. Otherwise total == size, churned == the reference count of rows with Exited == 1 (at most the total), rate == churned / total * 100, rate in [0, 100], and lost balance == the masked sum. |
| `FeatureImportance.Zip` | app.py:175-177 | Row i of the unsorted frame is (label i, weight i). |
| `FeatureImportance.Insert` | app.py:178 | Inserting adds exactly one entry, as a multiset. |
| `FeatureImportance.InsertSorted` | app.py:178 | Inserting into a table sorted by weight keeps it sorted. |
| `FeatureImportance.SortByWeight` | app.py:178 | The result is sorted ascending by weight and is a permutation of the input. |
| `FeatureImportance.ImportanceTable` | app.py:175-178 | The table has min(\|names\|, \|weights\|) rows, is sorted ascending by weight, and is a permutation of the pairs (names[i], weights[i]) below that length. |
| `FeatureImportance.ImportanceTableRows` | app.py:175-177 | An entry is in the table iff it is (names[i], weights[i]) for some i below the shorter length. |
| `FeatureImportance.ImportanceChart` | app.py:173-178 | With the ten fixed labels, the chart has min(10, \|importances\|) rows, is sorted by weight, and is a permutation of the positional pairs (label i, importance i) below that length. An entry is in the chart iff it is such a pair. |
| `FeatureImportance.SevenImportances` | app.py:176-177 | A seven-element importance vector gives exactly seven rows. |
| `ScenarioForm.Slider` | app.py:83-88 | The value is within [lo, hi]. An untouched slider gives the default, and an in-range choice is kept as chosen. |
| `ScenarioForm.NumberInput` | app.py:86-87 | The value is at least the minimum. An untouched input gives the default, and an entry at or above the minimum is kept. |
| `ScenarioForm.SelectBox` | app.py:91-94 | The value is one of the options. With nothing picked it is the first option; otherwise it is the picked option. |
| `ScenarioForm.UserInputFeatures` | app.py:81-110 | The record is always valid: CreditScore in [300, 850], Age in [18, 92], Tenure in [0, 10], NumOfProducts in [1, 4], Balance and EstimatedSalary >= 0, HasCrCard and IsActiveMember in {0, 1}. Each untouched slider or number input gives its own default (600, 40, 3, 60000.0, 50000.0, 2), whatever the other controls show. Every in-range slider or number entry reaches the record unchanged. Every select box gives its first option (France, Female, 1, 1) when untouched, and otherwise the option at the picked index. |
| `ScenarioForm.DefaultRecord` | app.py:83-94 | The untouched controls give (600, France, Female, 40, 3, 60000.0, 2, 1, 1, 50000.0). |
| `ScenarioForm.EveryValidRecordIsReachable` | app.py:83-94 | Every valid record can be entered through the controls. |
| `ScenarioForm.ToFrameRow` | app.py:97-109 | The frame's columns are exactly the ten model column names, in dict order. |
| `ScenarioForm.ColumnsDistinct` | app.py:97-108 | There are ten column names and they are pairwise distinct. |
| `ScenarioForm.ParseGeography` | app.py:91 | A geography name parses iff it is France, Germany or Spain. |
| `ScenarioForm.ParseGender` | app.py:92 | A gender name parses iff it is Female or Male. |
| `ScenarioForm.LookupByName` | app.py:97-109 | When column names are distinct, looking up a column's name gives that column's cell. |
| `ScenarioForm.FrameRowRoundTrip` | app.py:96-109 | Reading the frame back by column name gives the original record, so no field is lost or misplaced. |

## Left out

- Page setup, tabs, headers, the sidebar, metric widgets and markdown text (app.py:10-14, 35-44, 52-57, 162-167, 196) are left out. They are presentation only. The diagnosis lines are kept as (widget, text) pairs, without their emoji and markdown bold.
- The pie chart, the per-country histogram, the gauge drawing and the bar chart (app.py:59-72, 128-145, 180-195) are left out. They are drawn by the plotting library. Only the gauge's needle and marker values and its colour band ranges are modelled. The per-country grouping (app.py:69) happens inside that library, so `Row.geography` is carried but not aggregated.
- Loading the model and the CSV, the caching decorators and the `FileNotFoundError` handler (app.py:16-32) are left out. They are file I/O and framework caching. The error text at line 31 names only `model_churn.pkl`, even when the missing file is the CSV.
- `model.predict`, `model.predict_proba`, the choice of class index 1 and `named_steps['classifier'].feature_importances_` (app.py:122-125, 170) are left out. The classifier is opaque. The churn probability and the importance vector are parameters, and the binary label is not modelled.
- Number formatting with `:,`, `.2f` and `,.0f` (app.py:53-55) is left out. It is float-to-text presentation.
- Floating point is modelled as exact `real` arithmetic. NaN weights, rounding in `p * 100` and the floating-point sum of balances are not captured.
- FeatureImportance.SortByWeight: pandas' default sort is not stable. The contract therefore fixes only what the source guarantees (sorted ascending, a permutation). The model's own insertion order among equal weights is one of the orders pandas may produce.
- ScenarioForm.Slider and ScenarioForm.NumberInput: the real controls never produce out-of-range values. The model clamps an out-of-range request to the nearest bound as its way of representing that constraint. ScenarioForm.SelectBox likewise treats an out-of-range index as the first option.
- RiskPresenter.BandOf: the gauge's colour steps (app.py:135-138) share their endpoints, `[0, 30]`, `[30, 70]` and `[70, 100]`, so the drawing does not say which band 30 or 70 falls in. The model puts each boundary in the lower band, the same way the strict comparisons of the diagnosis do. That rule is chosen by the model, not taken from the source, and `VerdictMatchesGauge` holds at p = 0.3 and p = 0.7 because of it.
- `st.stop()` and the rest of the script's control flow after an error are not modelled. `AggregateView.Summarize` reports the division by zero as a value.
