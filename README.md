# NEPSE chart replay, modelled in Dafny

`Data_analysis.py` is a Streamlit page that replays a stock's price history as
though it were live. It loads a stored OHLCV document and sorts it by time.
A session cursor counts the candles the page means to show. While auto-play
is on, every pass of the page script moves the cursor one candle further and
reruns the script, until the whole series is visible; the pass that then
finds the series exhausted keeps the cursor, does not rerun and draws the
full chart. As written, the advancing passes stop before the chart is
drawn, so the growing prefix is not shown while playing (see Findings).
Turning auto-play off resets the cursor to the window size chosen on the
slider.

The model has two modules:

- `Candles` (`candles.dfy`, pure). It defines the `Candle` record and the
  parallel columns `t, o, h, l, c, v` of the stored document. `LoadData`
  zips the columns into rows and sorts the rows by time. It returns
  `Err(MismatchedColumns)` when the columns differ in length, because
  building the data frame refuses such columns.
- `Replay` (`replay.dfy`, imperative at its core). `ReplaySession` is a class
  with an immutable, time-sorted `series`, a possibly missing cursor
  (`initialised` plus `cursor`), and a `Step` method that models one pass of
  the replay logic. `Pass` adds what the pass draws. `AutoReplay` models the
  `st.rerun()` self-loop as a `while` loop of passes and returns the frames
  they draw. `RunPasses` runs passes with any sequence of widget values. Pure
  functions (`StartCursor`, `StepCursor`, `Reruns`, `CursorAfter`,
  `FrameAt`) specify these methods, and the lemmas state the replay's
  properties in terms of them.

Timestamps are integer epoch seconds. Prices and volumes are `real` payload
that no property depends on.

What the code does and does not check:

- Loading performs no high/low consistency check (lines 28-37): it only
  builds the table and sorts it.
- The sort (line 37) orders by time non-decreasingly; nothing requires
  timestamps to be distinct or strictly increasing.
- The cursor's floor comes from the slider's `min_value=20` (line 49) and its
  ceiling from `max_value=len(df)` (line 50). Given windows within those
  bounds, every reachable cursor lies in `20 ≤ cursor ≤ |series|`
  (`CursorAfter`, `ReplaySession.Valid`); the window bound is a precondition
  of every pass.
- Advancing auto-play passes draw nothing (see Findings).

## Model

| member | source | states |
|---|---|---|
| `Candles.Zip` | Data_analysis.py:28-35 | the table has one row per index, and row i pairs `t[i], o[i], h[i], l[i], c[i], v[i]` |
| `Candles.ColumnsOfZip` | Data_analysis.py:28-35 | splitting the zipped table gives back exactly the original columns |
| `Candles.ZipOfColumns` | Data_analysis.py:28-35 | zipping the columns of any table gives back that table |
| `Candles.SortByTime` | Data_analysis.py:37 | the result is in non-decreasing time order and is a permutation of the input |
| `Candles.LoadData` | Data_analysis.py:24-37 | loading succeeds exactly when all six columns have one length; it then returns as many rows as there are entries, in non-decreasing time order, as a permutation of the zipped rows |
| `Candles.SortedArrangementIsUnique` | Data_analysis.py:37 | when no two different records share a time, two sorted permutations of the same records are equal, so whether the sort is stable cannot be observed |
| `Candles.LoadDataIsDetermined` | Data_analysis.py:24-37 | when time is a key of the rows, any sorted permutation of the zipped rows is exactly what loading returns |
| `Replay.StartCursor` | Data_analysis.py:68-69 | a missing cursor starts at the window size, and an existing cursor is left alone |
| `Replay.StepCursor` | Data_analysis.py:68-77 | a paused pass sets the cursor to the window; a playing pass moves it by zero or one candle and never past the end |
| `Replay.Reruns` | Data_analysis.py:71-75 | a pass reruns exactly when auto-play is on and it has just moved the cursor one candle further |
| `Replay.CursorAfter` | Data_analysis.py:47-77 | from a new session, or from a cursor in `[20, length]`, any sequence of passes with slider-allowed windows leaves an existing cursor in `[20, length]` |
| `Replay.PlayingStepAdvancesByOne` | Data_analysis.py:71-73 | playing below the end moves the cursor by exactly one and asks for a rerun |
| `Replay.ExhaustedReplayIsFixedPoint` | Data_analysis.py:71-72 | playing with the whole series visible leaves the cursor at the end and asks for no rerun |
| `Replay.PauseResetsToWindow` | Data_analysis.py:76-77 | a paused pass sets the cursor to the window size whatever it was, never reruns, and is idempotent |
| `Replay.StepStaysInRange` | Data_analysis.py:47-77 | with a window allowed by the slider (20 to the series length), one pass keeps the cursor within those bounds |
| `Replay.PlayingCursorAfter` | Data_analysis.py:71-75 | while auto-play stays on, k passes show `min(start + k, length)` candles |
| `Replay.PlayingNeverRewinds` | Data_analysis.py:71-75 | while auto-play stays on, the cursor never decreases along the passes and never passes the end |
| `Replay.PauseForgetsHistory` | Data_analysis.py:68-77 | after a paused pass the cursor is that pass's window, whatever came before, from a new session as from an existing cursor |
| `Replay.FrameAt` | Data_analysis.py:79-107 | the visible slice is the prefix of length exactly `cursor`, and the current candle is its last element, `series[cursor-1]` |
| `Replay.CurrentCandleIsLatest` | Data_analysis.py:79-107 | in a sorted series no visible candle is later than the current candle |
| `Replay.OnlyFullChartIsDrawn` | Data_analysis.py:71-102 | as written, a chain of auto-play passes draws one chart only: the whole series |
| `Replay.MidReplayChartIsNeverDrawn` | Data_analysis.py:71-102 | replaying any 500 candles from a cursor of 100 never draws a chart of 150 candles |
| `Replay.EveryCountIsDrawn` | Data_analysis.py:71-102 | drawing before the rerun draws `n - start + 1` charts, chart i showing `min(start + 1 + i, n)` candles. When `start < n` these are the prefixes of `start + 1`, `start + 2`, ... up to `n` candles, the full chart appearing twice (once when the end is reached and once when the exhausted pass draws); when `start == n` it is the full chart alone |
| `Replay.ReplaySession.constructor` | Data_analysis.py:37-39 | a new session holds the loaded, time-sorted series and has no cursor yet |
| `Replay.ReplaySession.Step` | Data_analysis.py:68-77 | the new cursor is `StepCursor` of the old state and the controls, and the rerun flag is `Reruns`; the cursor stays within range |
| `Replay.ReplaySession.Pass` | Data_analysis.py:68-107 | a pass draws nothing exactly when it reruns; otherwise it draws the frame for the new cursor, whose current candle is the latest visible one |
| `Replay.ReplaySession.AutoReplay` | Data_analysis.py:71-102 | the self-rerunning loop ends with the whole series visible after exactly `length - start` reruns; the frames its passes draw are `DrawnWhilePlaying` of the start, which is the full chart alone |
| `Replay.ReplaySession.PassDrawingFirst` | Data_analysis.py:68-102 | the corrected pass: the same cursor and rerun flag as `Step`, and it always draws the frame for the new cursor |
| `Replay.ReplaySession.AutoReplayDrawingEachPass` | Data_analysis.py:71-102 | the corrected loop ends with the whole series visible and draws `DrawnWhilePlayingCorrected` of the start: frame i shows `min(start + 1 + i, length)` candles, `length - start + 1` frames in all |
| `Replay.ReplaySession.RunPasses` | Data_analysis.py:47-77 | from any session state, a new one included, passes with any slider-allowed widget values leave the cursor at `CursorAfter` of the old state and those passes; the cursor exists once a pass has run |

## Left out

- Candles.SortByTime: promises no order between records with equal timestamps, because `sort_values` sorts with pandas' default algorithm, which is not stable. `SortedArrangementIsUnique` shows that this is unobservable when time is a key.
- Reading the file, parsing JSON and the `@st.cache_data` memoisation (lines 23-26) are I/O and library caching. A document that parses but lacks one of the six keys raises `KeyError` at `raw["t"]` or one of the other lookups (lines 29-34); the model's columns are always present, so that error is not modelled.
- `pd.to_datetime` conversion (line 29): timestamps are kept as epoch seconds. Prices and volumes are floating point in the source and opaque `real` payload here.
- The Streamlit widgets, chart drawing and info panel (lines 12-18, 44-63, 84-117). Only their results are modelled: the slider's bounds become preconditions on the window, the toggle becomes the `autoPlay` parameter, and drawing becomes the returned `Frame`.
- Series shorter than 20 candles, the empty one included: the slider's bounds (lines 49-50) cannot be met, and what Streamlit then does is library behaviour; an empty series would also raise `IndexError` at `visible_df.iloc[-1]` (line 107). Every pass of the model requires `20 ≤ window ≤ |series|`, so such series are outside it.
- The slider's default value of 100 (line 51) is not modelled. What Streamlit does when that default exceeds a short series's length is library behaviour; the model takes any window the slider's bounds allow.
- The speed selector and `time.sleep(speed)` (lines 55-60, 74) have no effect on the cursor. `st.rerun()` (line 75) is modelled as the next iteration of `AutoReplay`'s loop.
- A user interaction that arrives during the sleep and interrupts the running pass is concurrency in the Streamlit server. `RunPasses` models only its outcome: the next pass reads the new widget values.

## Findings

| source | as written | input that shows it | evidently intended | confidence | as-written member | corrected member |
|---|---|---|---|---|---|---|
| Data_analysis.py:71-102 | a playing pass calls `st.rerun()` (line 75) before the chart and panel (lines 84-117). Streamlit stops a pass at `st.rerun()`, so no advancing pass draws anything | a 500-candle series with window 100 and auto-play on: the charts with 101 to 499 candles are never drawn, only the one with 500 | each pass draws its growing prefix before sleeping and rerunning, as the page title "Chart Replay" and the "Candles shown" caption suggest | medium: it rests on `st.rerun()` halting the pass; not executed | `Replay.OnlyFullChartIsDrawn` | `Replay.EveryCountIsDrawn` |
