# System monitor: rolling chart buffers

A Dafny model of the data side of `SystemMonitorApp`, a desktop window that charts CPU,
memory, disk, network and temperature readings and refreshes them once a second. The
application keeps five parallel lists. It starts them empty. On every tick it appends one
point to each list. When the CPU list then holds more than 20 points, it removes the first
point of all five lists. Two small rules produce the values:

- the temperature point is the first `coretemp` reading, or 0 when the chip is missing, has
  no readings, or the sensor query fails;
- the network point is all bytes sent plus received so far, divided by 1024·1024.

The model has two modules.

- `Samples` (`samples.dfy`) holds what the metrics provider answered on one tick (`Tick`)
  and the two value rules. The temperature step is written as the source's guarded block
  (`TemperatureTry`, which either appends or raises) followed by its exception handler
  (`TemperatureSample`).
- `Monitor` (`monitor.dfy`) holds the five series as one value (`Series`) and the pure step
  on them (`Push`). `Replay` applies that step to a run of ticks, starting from empty lists.
  The lemmas state FIFO retention. `SystemMonitorApp` is the class with the five list
  fields. Its method `UpdateGraphs` appends and pops in place, in two phases that follow the
  source's own split: `AppendReadings` collects, `DropOldest` trims. Its ghost field `ticks`
  records every tick taken. Its invariant says the lists are what `Replay` gives for those
  ticks, so by `ReplayIsWindow` they hold the points of the last 20 ticks.

The network point is the cumulative total in MB, not a rate, and no previous counters are
kept between ticks. The program has no thresholds, warnings, process-count chart or
background thread. Its window is 20 points.

## Model

| member | source | states |
|---|---|---|
| `Samples.TemperatureSample` | okr/main.py:76-84 | The temperature point is the first `coretemp` reading's current value when the query succeeds and that chip has a reading; in every other case (query raised, chip missing, chip with an empty list) it is the sentinel 0. |
| `Samples.TemperatureTry` | okr/main.py:76-82 | The guarded block raises exactly when the query fails (line 77) or the `coretemp` list is empty (the index at line 79); otherwise it appends the first `coretemp` reading, or 0 when the chip is missing (line 82). |
| `Samples.SampleOf` | okr/main.py:66-84 | The five values one tick appends: CPU, memory and disk percentages as read, the network total whose product with 1024·1024 is the byte total, and the first core reading or the sentinel 0. |
| `Samples.NetworkUsage` | okr/main.py:71-73 | The network point is non-negative and, multiplied by 1024·1024, gives back the total bytes sent plus received: a cumulative figure in MB computed from the current counters alone. |
| `Samples.NetworkUsageMonotone` | okr/main.py:71-73 | Because the point is a running total, counters that have not decreased never give a smaller network point. |
| `Monitor.Push` | okr/main.py:64-92 | One tick on lockstep buffers within capacity keeps them lockstep and within 20. The new length is the old length plus one, capped at 20. The last point is the new sample. The points before it are the old series' most recent points in their old order: all of them while there is room (no eviction), all but the oldest once the series is full. |
| `Monitor.Window` | okr/main.py:87-92 | The retained window of a history has length min(n, 20) and is the suffix of the history of that length. |
| `Monitor.Columns` | okr/main.py:64-92 | Layout helper, not a model of particular lines: a run of samples laid out as the five list fields, lockstep, of that length, with position i holding sample i. Retention is stated through it. |
| `Monitor.Replay` | okr/main.py:87-92 | Starting from five empty lists, any number of ticks leaves the lists lockstep and of length min(ticks, 20): they grow by one per tick and, once at 20, stay at 20. |
| `Monitor.PushWindow` | okr/main.py:87-92 | FIFO retention for one tick: pushing a sample onto the window of a history gives the window of the history extended by that sample. |
| `Monitor.ReplayIsWindow` | okr/main.py:64-92 | Starting from five empty lists, each list after any run of ticks is exactly the last min(n, 20) values appended to it, in order. |
| `Monitor.ReplayKeepsLastAppended` | okr/main.py:64-92 | Each of the five lists, taken on its own, is exactly the last min(n, 20) values appended to that list during the run, in the order they were appended (`AllAppended` lists every value appended, as if nothing were evicted). |
| `Monitor.ReplayAt` | okr/main.py:64-92 | Position i of the lists holds the five points of the corresponding recent tick, so all five charts show the same ticks, oldest first. |
| `Monitor.ReplaySnoc` | okr/main.py:64-92 | One more tick on a run is one more `Push` on the run's buffers. |
| `Monitor.SystemMonitorApp.constructor` | okr/main.py:9-22 | Initialisation starts from five empty lists and takes the first tick at once. Afterwards each list holds that tick's point, and the invariant holds with one tick recorded. |
| `Monitor.SystemMonitorApp.UpdateGraphs` | okr/main.py:64-92 | One in-place tick. The new state is `Push` of the old one. The tick is added to the history, and the invariant is kept: the lists are the replay of all ticks taken. |
| `Monitor.SystemMonitorApp.AppendReadings` | okr/main.py:66-84 | The collection phase appends exactly one point to each of the five lists, including a temperature point in every fallback case. Nothing else changes. |
| `Monitor.SystemMonitorApp.DropOldest` | okr/main.py:87-92 | The trimming phase removes the first point of all five lists and keeps the rest in order. It needs only the CPU list to be non-empty plus lockstep, which is why checking the CPU list alone is safe. |

## Left out

- Widget construction, chart clearing and redrawing, titles and colours (okr/main.py:24-62, 94-122): GUI and plotting library calls with no state of their own.
- The psutil queries (okr/main.py:66-68, 71, 77): external calls. Their answers for one tick are the fields of `Tick`. A failing temperature query is the `QueryFailed` case, not an exception.
- Exceptions from the CPU, memory, disk and network queries: the source does not catch them, and the model treats those readings as always available.
- Sensor readings keep only their `current` value. The label, high and critical fields are never read.
- Rescheduling with `root.after(1000, ...)` and the event loop (okr/main.py:123, 128): timer plumbing. A run of ticks is modelled by `Replay` and by repeated `UpdateGraphs` calls.
- okr/launcher.py: a button that spawns the monitor as a subprocess. It is process spawning and UI only.
- Floating point: percentages and the MB value are Python floats. The model uses `real`, makes no rounding claims, and stores the integer 0 the source appends as the real 0.
- `Monitor.Push`, `Monitor.SystemMonitorApp.UpdateGraphs` and `Monitor.SystemMonitorApp.DropOldest` require lockstep buffers (and, for the first two, at most 20 points). Every reachable state satisfies this. On other states the source's `pop(0)` could raise, and that path is not modelled.
