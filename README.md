# Dynamometer measurement pipeline — a Dafny model

This project models the measurement core of the Iron Warriors dynamometer
("hamownia"). An encoder produces pulses. They are turned into integer samples
`(index or pulse count, interval ns, capture time ns)` in one of two ways:

- a per-pulse debounced callback (`hamownia_24-25.py`);
- fixed-window pulse counting (`gpio.py`).

The samples pass through a FIFO queue to a writer loop. Each writer iteration
computes rpm, angular velocity, finite-difference torque and power, and appends
them to four parallel lists. A start/stop control gates the writer and clears the
lists. A filter prepares the lists for the summary plot.

Files:

- `measurement.dfy` (module `Measurement`): the sample and record types, the
  per-sample computation `Measure` shared by both writers (`real` stands for
  Python floats), and `Series`, the records a writer produces from a run of
  samples.
- `hamownia.dfy` (module `Hamownia`): the script's globals as class `Script`,
  with the edge callback, one writer iteration and the start/stop button. It also
  holds `Debounce` and `CaptureRun`, the edge-by-edge specification of the callback.
- `gpio.dfy` (module `Gpio`): class `GpioHandler`, with the counting
  callback and one poll of the window monitor. `WindowTick` and `WindowRun` specify
  the interleaving of edges and polls.
- `logger.dfy` (module `Logger`): class `Logger`, with the gated enqueue,
  `ComputeData`, one writer iteration, the writer loop run until the queue is
  empty, and `CleanData`.
- `guiapp.dfy` (module `GuiApp`): the Start/Stop Logging button.
- `plotter.dfy` (module `Plotter`): the negative-value filter of the summary plot.

Threads are modelled as interleaved method calls. Each call is one callback, one
poll or one writer iteration. Clock readings (`time.time_ns()`) are method
parameters. They are wall-clock readings, so the model does not assume that they
increase. Where a property needs increasing readings, the lemma requires it.

The model follows the code as written, including these behaviours a reader might
not expect:

- A rejected edge still moves the debounce baseline (`last_time_ns`).
- `logger.py` checks the recording flag when it enqueues and again when it
  dequeues. The script checks it only when it dequeues.
- Starting a session does not reset the writer's `prev_omega`/`prev_time_s`. The
  first record of a new session can therefore have non-zero torque
  (`Logger.RestartKeepsPrevious`, `GuiApp.RestartScenario`).
- `compute_data` ignores the pulse count of a windowed sample. 42 pulses in a
  0.5 s window are logged as 120 rpm, not 5040 rpm
  (`Logger.WindowedRpmIgnoresPulses`).
- A zero interval raises `ZeroDivisionError` in the logger's writer thread, and
  that thread then ends (`writerAlive`). In the script this cannot happen:
  `Script.Valid()` keeps every queued interval at or above `MIN_DELTA_NS`.
- `MIN_DELTA_NS` is 6_000_000 ns, as in `hamownia_24-25.py`. The value 6 in
  `settings.py` is not read by any modelled code.

## Model

| member | source | states |
|---|---|---|
| Measurement.Measure | logger.py:34-54 | rpm × interval = 60·10⁹. omega = 2π·rpm/60. Time in s × 10⁹ = capture ns. Torque is 0 without a previous record or when Δt ≤ 0; otherwise torque·Δt = I·Δω. Power = torque × omega. |
| Measurement.Series | logger.py:61-76 | The writer loop produces exactly one record per sample, each computed by `Measure` from the memory the earlier records left. The script's loop (hamownia_24-25.py:61-91) runs the same `Measure` step with π = 3.1416. |
| Measurement.SeriesPrefix | logger.py:61-76 | The records of a prefix of the samples are the prefix of the records: a record depends only on earlier samples. |
| Measurement.SeriesAt | logger.py:61-76 | FIFO: the i-th record is computed from the i-th sample, using the memory left by records 0..i-1. |
| Measurement.SeriesTimeAt | logger.py:74-76 | Each record carries the capture time of its own sample, in seconds. |
| Measurement.SeriesFirstTorque | logger.py:42-52 | With no previous record, the first record has torque 0 and power 0. |
| Measurement.SeriesTimeOrdered | logger.py:61-76 | If capture times do not decrease, the record times do not decrease. |
| Measurement.SeriesIgnoresIndex | logger.py:62-68 | The records depend only on interval and capture time. The pulse index is not used. |
| Measurement.ColumnSnoc | logger.py:71-74 | Appending a record appends one element to each parallel list. |
| Hamownia.Debounce | hamownia_24-25.py:38-50 | The baseline becomes `now` on every edge. A sample is queued iff a baseline exists and now − baseline ≥ MIN_DELTA_NS. An accepted edge increments the count by exactly 1 and queues (count, delta, now) with delta ≥ MIN_DELTA_NS > 0. A rejected or first edge leaves the count unchanged. |
| Hamownia.CaptureRunBaseline | hamownia_24-25.py:42-50 | After a run of edges the baseline is the last edge's time. An empty run changes nothing. |
| Hamownia.CaptureRunIndices | hamownia_24-25.py:45-46 | Queued indices are count+1, count+2, … in order, and the counter ends at count + number queued. |
| Hamownia.CaptureRunIntervals | hamownia_24-25.py:43-46 | Every queued interval is ≥ MIN_DELTA_NS, so the rpm division never divides by zero. |
| Hamownia.CaptureRunAfter | hamownia_24-25.py:43-50 | If edge times do not decrease and the first edge is no earlier than the baseline, every queued capture time is at least MIN_DELTA_NS after the starting baseline. |
| Hamownia.CaptureRunOrdered | hamownia_24-25.py:41-50 | If edge times do not decrease, queued capture times strictly increase, and none is later than the final baseline. |
| Hamownia.ThreePulsesScenario | hamownia_24-25.py:38-78 | Edges at 0, 10 ms and 20 ms queue two samples with 10 ms intervals, each giving 6000 rpm and zero torque. |
| Hamownia.Script.constructor | hamownia_24-25.py:20-31 | Initial globals: no baseline, count 0, not recording, empty queue and lists, no previous record. |
| Hamownia.Script.EncoderCallback | hamownia_24-25.py:38-50 | Changes only the baseline, the count and the queue, exactly as `Debounce` does. The queue grows at its tail whatever the recording flag. |
| Hamownia.Script.WriterStep | hamownia_24-25.py:61-91 | On an empty queue nothing changes. Otherwise the head is removed. While not recording it is dropped, with no list or memory change. While recording, exactly one record (the `Measure` of the head) is appended to each of the four lists, and its omega and time become the memory. |
| Hamownia.Script.ToggleRecording | hamownia_24-25.py:118-131 | Start sets the count to 0, empties the four lists and turns recording on. Stop only turns recording off. The baseline, the queue and the memory are never changed. |
| Logger.Logger.constructor | logger.py:15-27 | New logger: empty queue and lists, not recording, no previous record, writer running. |
| Logger.Logger.EnqueData | logger.py:29-32 | The queue grows by the sample iff recording. Otherwise it is unchanged. The logger's invariant (parallel lists, memory set as a pair) is kept. |
| Logger.Logger.ComputeData | logger.py:34-54 | Fails with ZeroDivisionError iff the interval is 0. Otherwise it returns `Measure` with π = 3.14159. Torque is 0 without a previous record. Reads state and changes none. |
| Logger.Logger.WriterStep | logger.py:61-76 | Blocked (empty queue) or dead writer: nothing changes. Otherwise the head is removed. Not recording: dropped. Zero interval: the thread ends, lists unchanged. Else one element is appended to each of the four lists, and the memory becomes (omega, now/10⁹), the time just appended. |
| Logger.Logger.DrainQueue | logger.py:56-76 | Running the loop until the queue is empty consumes the samples in FIFO order. While recording, each list grows by exactly the corresponding column of `Series` of the old queue, and the memory is that series' last record. While not recording, nothing but the queue changes. |
| Logger.Logger.CleanData | logger.py:78-83 | Empties the four lists and keeps the logger's invariant. The frame shows that the flag, the queue and the memory are kept. |
| Logger.DrainStep | logger.py:61-76 | One more sample extends the series by the record computed from the memory so far. |
| Logger.WindowedRpmIgnoresPulses | logger.py:34-38 | A windowed sample of 42 pulses in 0.5 s yields 120 rpm, the same as a sample of 1 pulse. |
| Logger.RestartKeepsPrevious | logger.py:42-47 | With a remembered record left over from a previous session, the next record's torque can be non-zero: a remembered 0 rad/s at 1 s gives positive torque for a 6000 rpm sample at 2 s. |
| Gpio.WindowTick | gpio.py:54-62 | Before the window elapses nothing changes and nothing is emitted. At a boundary the counter becomes 0 and the boundary becomes now, idle or not. A sample is emitted iff the count was > 0, and it carries exactly that count and elapsed ≥ window. Counted pulses = remaining + emitted. |
| Gpio.WindowRunConserves | gpio.py:47-62 | Under any interleaving of edges and polls: start count + edges = emitted pulses + current counter. |
| Gpio.WindowRunWellFormed | gpio.py:55-62 | Every emitted sample has pulses > 0 and elapsed ≥ window. |
| Gpio.WindowRunOrdered | gpio.py:54-62 | For a positive window, emitted capture times strictly increase and follow the starting boundary, even if the clock steps back. |
| Gpio.IdleWindowMovesBoundary | gpio.py:55-62 | After an idle window, a pulse is reported with elapsed = one window, measured from the idle boundary and not from the last emission. |
| Gpio.GpioHandler.constructor | gpio.py:24-28 | The counter starts at 0, the window is WINDOW_SIZE_NS, and the boundary is the clock reading. |
| Gpio.GpioHandler.EncoderCallback | gpio.py:47-49 | Increments the counter by exactly 1 and, by its frame, changes nothing else. |
| Gpio.GpioHandler.WindowMonitorStep | gpio.py:53-62 | Counter and boundary move as `WindowTick` says. The logger's queue grows by the emitted sample if recording, and nothing else of the logger changes. |
| GuiApp.GuiApp.constructor | guiapp.py:16-17 | The application keeps the logger it was given. |
| GuiApp.GuiApp.ToggleLogging | guiapp.py:46-54 | Flips the recording flag, so two toggles restore it. Start empties the four lists before recording begins. Stop keeps them. The queue, the memory and the writer are untouched. |
| GuiApp.RestartScenario | guiapp.py:46-54 | Start, one 6000 rpm sample at 1 s, stop, start, one 12000 rpm sample at 2 s: the first session's record has torque 0, and the new session's first record has positive torque, because neither toggle resets the writer's previous record. |
| Plotter.ZipLength | plotter.py:49 | The number of zipped rows is the length of the shortest list. |
| Plotter.Cleaned | plotter.py:46-55 | The three outputs have equal length, at most the number of zipped rows. |
| Plotter.KeptRowsExactly | plotter.py:49-50 | The kept row numbers are strictly increasing and below the zip length. A row is kept iff torque ≥ 0 and power ≥ 0. |
| Plotter.CleanedSelectsKeptRows | plotter.py:49-53 | Output k is kept row k, in original order (a subsequence): rpm and torque are copied, and power × 1000 is the input power. |
| Plotter.CleanedKeepsAll | plotter.py:49-53 | If no row has negative torque or power, all rows come through: rpm and torque unchanged, same length. |
| Plotter.CleanData | plotter.py:42-55 | The loop returns exactly `Cleaned` of the zipped rows: three equal-length lists, no longer than any input. |

## Left out

- GUI and plotting: the tkinter windows, labels, live chart (`update_loop`) and
  the matplotlib summary plots (`generate_summary_plot`, both copies). The filter
  inside the script's `generate_summary_plot` is the same as `Plotter.CleanData`.
  It is modelled once.
- The log file: opening it, the header, the formatted rows and `flush`. This is
  I/O with float formatting; only the in-memory lists are modelled.
- Threads, daemon loops, `time.sleep`, blocking `queue.get`, and signal handling.
  Calls are sequential interleavings. A blocked `get` is a step that changes
  nothing. The unsynchronised race between `pulse_count_window += 1` and its reset
  is not modelled.
- `time.time_ns()`: clock readings are parameters.
- `GPIOHandler.simulate_rpm_changes`: float trajectory generation with `random`,
  `math.sin` and sleeps.
- GPIO pin set-up and callback registration (`mocks.py`, `GPIO.setup`,
  `add_event_detect`): hardware access.
- `main.py`: wiring only.
- Exact float results: `real` replaces IEEE doubles. The two π approximations
  (3.1416 in the script, 3.14159 in the logger) are kept as constants, but no
  rounding is modelled.
- `Logger`'s lists and queue are class attributes shared by every instance in
  Python. The model has a single logger with its own fields.
- Logger.Logger.DrainQueue: covers only queues with no zero interval, because the
  window monitor only produces those (`Gpio.WindowRunWellFormed`). The case of a
  zero interval is covered by `WriterStep`.
- The script's writer loop keeps `prev_omega`/`prev_time_s` as locals. The model
  makes them fields of `Script`; they hold the same state across iterations.
