# Drought indicators of the Calderón water-supply assistant

This project models the drought-indicator computation of the Calderón water-supply
assistant and proves properties of it. The input is a daily series of rows. Each row
has a date (`fecha`), an availability value (`valor`, where 0 means no water that
day) and two optional reliability cells (`completo_mediciones`, `completo_umbral`).

The repository computes the indicators three times, and each copy handles empty
frames and missing columns in its own way. The model keeps the three copies apart:

- `Analysis` (backend/analysis.py). It loads the rows and sorts them by date in
  place. It computes total days, days without water, the percentage without water
  and the reliability. It has no guards. So a missing reliability column is a
  `KeyError`, and an empty frame is a `ZeroDivisionError`. Both appear as
  `Result.Err`, in the order in which Python hits them.
- `Reporte` (backend/generar_reporte.py). This is the indicator block of the PDF
  report. The block guards the percentage with a 0 for an empty frame, but the
  report never shows that 0 (see below). Reliability stays 0 unless both columns
  exist. The block also gives the period (first and last
  date) and the days without water per year. An empty frame makes the period fail
  with a `ValueError`, because formatting the NaT date raises.
- `Dashboard` (frontend/streamlit_app.py). This covers records per year, the
  summary (`KeyError` when a column is missing; its 0 fallback for an empty frame
  sits behind the `st.stop()` of an empty frame and is never reached), the rounded display, the scarcity and reliability flags, min and max,
  and the 30-row rolling-mean trend check. The analysis text is built step by step
  in a method.

Shared modules model the library operations these copies use:

- `Frames`: the row, frame and date types, boolean masks, exact percentages,
  `round(x, 2)`, and min and max.
- `Sorting`: `sort_values` by date, as an in-place insertion sort on an array.
- `Grouping`: `groupby(...).size()`, which returns one count per key with the keys
  ascending.
- `Rolling`: `rolling(window).mean()` as a sliding sum. Undefined entries (NaN)
  are `None`.
- `Agreement`: how the three copies relate on the same frame.
  `Agreement.CopiasCoinciden` shows that with both reliability columns and at least
  one row they agree on the counts and differ only in where `round(x, 2)` is
  applied. `Agreement.CopiasDifieren` shows that when a column is missing, the
  analysis module and the dashboard fail with the same `KeyError` while the report
  shows a reliability of 0.

Notable behaviour, proved rather than assumed:

- The dashboard takes `tendencia.iloc[0]`, the first entry of a 30-row rolling
  mean. That entry is NaN, and a comparison with NaN is false. So the "decreasing"
  message can never be chosen (`Dashboard.Tendencia` ensures `!decreciente`).
- The dashboard flags compare the unrounded percentages. The text and the
  summary show the rounded ones.
- Every year in which zero-valued days occur is listed in the report's per-year
  bars, and no other year is listed. The bars add up to exactly the report's days
  without water.

Edge cases as the code handles them:

- An empty frame never yields indicators. The dashboard tab stops
  (`st.stop()`) before its summary is computed. The report fails with a
  `ValueError` when it formats the period. The analysis module raises a
  `ZeroDivisionError`, or first a `KeyError` when a reliability column is missing.
  The 0 fallbacks of the report's percentage and of the dashboard's two
  percentages exist in the code, but nothing they compute is ever shown.
- A missing reliability column gives a reliability of 0 (report) or a `KeyError`
  (analysis, dashboard).
- The date sort is the library's default sort, which is not stable. So only "sorted
  by date and a permutation" is promised; rows that share a date may come out in
  any order.
- The trend compares the last rolling-mean entry with entry 0. With fewer than 30
  rows, as with any other number of rows, the trend message is "increasing or
  stable".

## Model

| member | source | states |
|---|---|---|
| `Frames.Filter` | backend/analysis.py:9 | a masked selection keeps exactly the rows satisfying the mask, each as often as in the frame, and no more rows than the frame |
| `Frames.CountYear` | backend/generar_reporte.py:81-82 | how often a year occurs in the derived year column equals the number of rows dated in that year |
| `Frames.Porcentaje` | backend/analysis.py:16 | `count / total * 100` without rounding: lies in [0, 100] and times `total` gives `count * 100` |
| `Frames.Round2` | backend/analysis.py:17 | `round(x, 2)`: a multiple of 0.01 within 0.005 of `x`, even hundredths on a tie, stays in [0, 100] when `x` does |
| `Frames.MinValor` | frontend/streamlit_app.py:106 | the minimum occurs in the series and is at most every value |
| `Frames.MaxValor` | frontend/streamlit_app.py:105 | the maximum occurs in the series and is at least every value |
| `Frames.PrimeraFecha` | backend/generar_reporte.py:73 | the earliest date is some row's date and no row is dated before it |
| `Frames.UltimaFecha` | backend/generar_reporte.py:74 | the latest date is some row's date and no row is dated after it |
| `Sorting.SortByFecha` | backend/analysis.py:5 | the array is reordered in place: ascending by date and a permutation of the old contents |
| `Grouping.GroupSize` | frontend/streamlit_app.py:64 | group keys ascend with no duplicates, no group is empty, the keys are exactly the values present, each count is the value's number of occurrences, and the counts add up to the number of entries |
| `Rolling.RollingMean` | frontend/streamlit_app.py:116 | entry `i` is undefined while fewer than `w` values are available, and otherwise is the mean of values `i - w + 1 .. i` |
| `Rolling.WindowMeanBounds` | frontend/streamlit_app.py:116 | a defined rolling-mean entry lies within any bounds that hold for all values of its window |
| `Analysis.CargarDatos` | backend/analysis.py:3-6 | the loaded frame is fresh, holds exactly the parsed rows, and is sorted ascending by date |
| `Analysis.CalcularIndicadores` | backend/analysis.py:8-18 | succeeds iff both reliability columns exist and the frame is non-empty; a missing column gives a `KeyError` before an empty frame gives a `ZeroDivisionError`; otherwise total is the number of rows, days without water are the zero-valued rows (at most the total), the percentage is their unrounded share in [0, 100], and reliability is the rounded share of rows with measurements at or above the threshold, in [0, 100] |
| `Reporte.IndicadoresReporte` | backend/generar_reporte.py:67-72 | total and zero-day count as in the frame, with the count at most the total; the percentage is 0 for an empty frame and otherwise the rounded share, in [0, 100]; reliability is 0 unless both columns exist, NaN for an empty frame that has both, and otherwise the rounded reliable share |
| `Reporte.Periodo` | backend/generar_reporte.py:73-74 | fails (`ValueError`) iff the frame is empty; otherwise start and end are dates that occur, every date lies between them, and start is not after end |
| `Reporte.DiasSinAguaPorAnio` | backend/generar_reporte.py:82 | the zero-day counts per year come with ascending years and no empty year |
| `Reporte.DiasSinAguaPorAnioSuma` | backend/generar_reporte.py:81-82 | the per-year zero-day counts add up to the summary's days without water |
| `Reporte.DiasSinAguaDeUnAnio` | backend/generar_reporte.py:81-82 | each year's count is the number of zero-valued rows dated in that year |
| `Reporte.DiasSinAguaPorAnioClaves` | backend/generar_reporte.py:81-82 | a year is listed iff some zero-valued row is dated in it |
| `Reporte.GenerarReporte` | backend/generar_reporte.py:67-122 | fails iff the frame is empty; otherwise it shows the indicator block's summary exactly as computed, the period, and exactly the per-year zero-day counts of the frame, which add up to its days without water |
| `Dashboard.RegistrosPorAnio` | frontend/streamlit_app.py:63-64 | records per year come with ascending years, every count is at least 1, the counts add up to the number of rows, and the years are exactly those of the rows |
| `Dashboard.RegistrosDeUnAnio` | frontend/streamlit_app.py:63-64 | a year's record count is the number of rows dated in that year |
| `Dashboard.Resumen` | frontend/streamlit_app.py:85-89 | fails iff the frame is non-empty and a reliability column is missing (a `KeyError` naming the first one indexed); an empty frame gives 0 for both percentages; otherwise both are the unrounded shares, in [0, 100] |
| `Dashboard.ResumenMostrado` | frontend/streamlit_app.py:91-96 | the displayed summary keeps the counts and shows each percentage rounded to 2 places, within 0.005 of the computed value |
| `Dashboard.Tendencia` | frontend/streamlit_app.py:116-117 | rows are sorted by date (a permutation); entry `i` of the trend is defined iff `i >= 29` and then is the mean of sorted rows `i - 29 .. i`; "decreasing" compares the last entry with entry 0 and is never true |
| `Dashboard.Avisos` | frontend/streamlit_app.py:108-112 | the scarcity message is present iff the unrounded percentage without water exceeds 30, and the reliability message iff the unrounded reliability is below 70; each shows its value rounded to 2 places, no other message is present, and the scarcity message comes first |
| `Dashboard.AnalisisAutomatico` | frontend/streamlit_app.py:103-120 | the analysis text is the threshold flags, then min and max, then always the "increasing or stable" message, and never the decreasing one |
| `Dashboard.ExtremosOrdenados` | frontend/streamlit_app.py:105-106 | min is at most max, and both are values of some row |
| `Dashboard.Tablero` | frontend/streamlit_app.py:54-125 | an empty frame stops the tab; a summary error ends it with that error; otherwise it shows records per year, the rounded summary, and an analysis whose flags are computed from the unrounded summary |
| `Agreement.CopiasCoinciden` | backend/analysis.py:8-18 | with both reliability columns and at least one row, the three copies agree on total and zero days; the analysis and dashboard percentages without water are equal and the report's is its rounding; the analysis reliability is the dashboard's rounded, and the report's equals the analysis one |
| `Agreement.CopiasDifieren` | backend/generar_reporte.py:70-72 | with a reliability column missing and at least one row, the analysis module and the dashboard fail with the same `KeyError`, while the report shows a reliability of 0 |
| `Agreement.MarcoVacio` | backend/generar_reporte.py:67-73 | an empty frame makes the report fail with a `ValueError` at the period, and the analysis module fail (a `ZeroDivisionError` when both columns exist) |

## Left out

- Reading the CSV and parsing dates (`read_csv` with `parse_dates`) is file I/O. The model starts from already typed rows and from two flags that say whether the reliability columns exist. A failed read, which returns `False` in the report and an empty frame in the dashboard, is not modelled apart from the empty frame.
- The `valor` column is modelled as exact reals without NaN. Missing values would be skipped by min and max and would compare unequal to 0. That case is not modelled.
- Floating point is replaced by exact reals. `Frames.Round2` models Python's `round(x, 2)` as exact round-half-even. Binary floats can round a decimal tie either way.
- Dates are ordered year, then month, then day. Their calendar validity is not checked.
- `Analysis.CalcularIndicadores` and the dashboard need both reliability columns. In the model these columns are present or absent for the whole frame. The empty-frame NaN of the report's reliability follows the library's integer-by-zero division. Python exceptions are `Result.Err`, not propagated control flow.
- Adding the `año` column to the frame (an in-place column insert) is modelled as the derived series `Frames.Anios`, not as a change to the frame.
- Charts (matplotlib, plotly), the HTML and PDF rendering (pdfkit/wkhtmltopdf), the temporary figure directory and `datetime.now()` are rendering side effects or a clock.
- Email delivery (`enviar_correo_con_adjunto`, backend/email_utils.py, prueba_smtp.py) is network I/O with environment credentials.
- backend/chatbot.py is a call to an external language model over the library's `describe()` text. backend/main.py is HTTP routing only.
- Streamlit widgets, `st.cache_data`, the chatbot tab and its HTTP request are UI and network. `Dashboard.Tablero` does not keep the records-per-year chart that is drawn before a `KeyError` ends the script.
- The analysis block's `except` branch is never reached with the modelled inputs, so no error of that block is modelled.
