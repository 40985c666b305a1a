# DerivX demonstration scripts in Dafny

The DerivX plugins price two families of structured products on a pricing
kernel: the autocallable snowball and the barrier sharkfin. The
demonstration scripts that drive them are modelled here:

- the snowball script in Python;
- the sharkfin script in Python and in JavaScript.

The scripts themselves compute little; the kernel does the pricing. What
the model covers:

- **Configuration records.** Each family has a flat `Config` record with a
  fixed attribute inventory and fixed initial values. `ToJson` serialises
  the whole record into a task's arguments (`snowball_config.dfy`,
  `sharkfin_config.dfy`; value kinds in `fields.dfy`). The sharkfin record
  is the same in Python and JavaScript, so one datatype serves both.
  Serialisation is modelled as a map from attribute to value, with a
  decoder. The model proves:
  - decoding what was encoded returns the record;
  - encoding is injective;
  - setting `calc_greek` changes exactly one entry.
- **Schedule builders** (`schedules.dfy`):
  - `MakeStepDown`, with its two append loops;
  - the in-place `knock_o_rate` step-down over an array;
  - `arange` for the price grid: numpy's `np.arange` in the Python scripts,
    which numjs's `nj.arange` in the JavaScript script matches for the
    demonstration's positive step.
- **The export transform** (`surface.dfy`). `ExportResult` cuts the result
  surface to the days `[run_from, run_from + run_days)` and reverses the
  rows together with their price labels. It labels the columns `day_<d>`.
  The numpy and pandas errors it can raise are error values.
- **Tasks and completion signalling** (`tasks.dfy`):
  - task descriptors and result envelopes;
  - the `OnResult_*` callbacks in their Python and JavaScript forms;
  - the `threading.Event` and `AbortController` that the callbacks signal;
  - the asynchronous clear/submit/wait sequence in both languages, as the
    scripts write it in their commented-out code (every `AssignTask` call
    is commented out);
  - what happens when a submission follows one that timed out, whose
    callback is still pending;
  - the greeks loop, which re-serialises the record once per greek flag.
- **The demonstrations' own data** (`snowball_demo.dfy`,
  `sharkfin_demo.dfy`):
  - the record each script fills in, and the task descriptors it builds;
  - the option and barrier codes;
  - the facts the scripts rely on: equal schedule lengths, ascending dates,
    barrier ordering, and the expected grid shape.

The kernel is not modelled. What the backend answers and when it calls
back are parameters:

- the acknowledgement envelope;
- the envelope handed to the callback;
- the callback's time in seconds, or none.

## Model

| member | source | states |
|---|---|---|
| SnowballConfig.Default | exe/windows/bin/derivx_py/0.6.4/test_derivx_autocall_snowball_gpu.py:55-133 | A fresh snowball record has every number at 0, every list empty and `calc_greek` empty. Its only true booleans are `dual_smooth`, `knock_i_valid` and `knock_i_margin_call`. |
| SnowballJson.Encode | exe/windows/bin/derivx_py/0.6.4/test_derivx_autocall_snowball_gpu.py:135-136 | `ToJson` yields one entry per attribute, holding a value of that attribute's kind. |
| SnowballJson.Decode | exe/windows/bin/derivx_py/0.6.4/test_derivx_autocall_snowball_gpu.py:135-136 | A field map is read back into a record exactly when every attribute is present with a value of its kind. |
| SnowballJson.DecodeEncode | exe/windows/bin/derivx_py/0.6.4/test_derivx_autocall_snowball_gpu.py:135-136 | Decoding what `ToJson` produced gives back the same record: every attribute survives. |
| SnowballJson.EncodeInjective | exe/windows/bin/derivx_py/0.6.4/test_derivx_autocall_snowball_gpu.py:135-136 | Two records serialise equally if and only if they are equal. |
| SnowballJson.SetGreekChangesOnlyGreek | exe/windows/bin/derivx_py/0.6.4/test_derivx_autocall_snowball_gpu.py:372 | Assigning `calc_greek` changes that attribute's value to the flag and leaves every other attribute's value as it was. |
| SnowballJson.EncodeSetGreek | exe/windows/bin/derivx_py/0.6.4/test_derivx_autocall_snowball_gpu.py:372-373 | The serialisation after assigning `calc_greek` is the old serialisation with the `calc_greek` entry replaced, and nothing else. |
| SharkfinConfig.Default | exe/windows/bin/derivx_py/0.6.4/test_derivx_barrier_sharkfin.py:65-140 | A fresh sharkfin record has every number at 0, every list empty and `calc_greek` empty. `dual_smooth` is its only true boolean. The JavaScript constructor at test_derivx_barrier_sharkfin.js:57-133 sets the same values. |
| SharkfinJson.Encode | exe/windows/bin/derivx_py/0.6.4/test_derivx_barrier_sharkfin.py:142-143 | `ToJson` (and `JSON.stringify(this)` in JavaScript) yields one entry per attribute, holding a value of that attribute's kind. |
| SharkfinJson.Decode | exe/windows/bin/derivx_js/0.6.4/test_derivx_barrier_sharkfin.js:135-136 | A field map is read back into a record exactly when every attribute is present with a value of its kind. |
| SharkfinJson.DecodeEncode | exe/windows/bin/derivx_py/0.6.4/test_derivx_barrier_sharkfin.py:142-143 | Decoding the serialisation gives back the same record. |
| SharkfinJson.EncodeInjective | exe/windows/bin/derivx_py/0.6.4/test_derivx_barrier_sharkfin.py:142-143 | Two records serialise equally if and only if they are equal. |
| SharkfinJson.SetGreekChangesOnlyGreek | exe/windows/bin/derivx_py/0.6.4/test_derivx_barrier_sharkfin.py:339 | Assigning `calc_greek` changes that attribute's value to the flag and no other. |
| SharkfinJson.EncodeSetGreek | exe/windows/bin/derivx_js/0.6.4/test_derivx_barrier_sharkfin.js:343-344 | The serialisation after assigning `calc_greek` differs from the old one at the `calc_greek` entry alone. |
| Schedules.MakeStepDown | exe/windows/bin/derivx_py/0.6.4/test_derivx_autocall_snowball_gpu.py:157-165 | The two append loops build exactly the schedule `StepDown`: the flat block, then the step-down block. |
| Schedules.StepDownLength | exe/windows/bin/derivx_py/0.6.4/test_derivx_autocall_snowball_gpu.py:158-162 | The schedule has max(0, stepdown_start - observe_start - 1) + max(0, duration - stepdown_start + 2) entries. A negative `range` runs no times. |
| Schedules.StepDownValues | exe/windows/bin/derivx_py/0.6.4/test_derivx_autocall_snowball_gpu.py:160-163 | The flat block holds `default_ratio`. Entry i of the step-down block is `default_ratio - stepdown_ratio * i`, so that block starts at `default_ratio`. |
| Schedules.StepDownCoversObservations | exe/windows/bin/derivx_py/0.6.4/test_derivx_autocall_snowball_gpu.py:157-165 | When the step-down starts after the first observation month and no later than two months past the end, there is one entry per month from `observe_start` to `duration`. |
| Schedules.StepDownNonIncreasing | exe/windows/bin/derivx_py/0.6.4/test_derivx_autocall_snowball_gpu.py:162-163 | With a non-negative `stepdown_ratio` the schedule never rises. |
| Schedules.StepDownInPlace | exe/windows/bin/derivx_py/0.6.4/test_derivx_autocall_snowball_gpu.py:288-289 | The loop lowers entry i of the array by i * `knock_o_steps`, in place. The array keeps its length, and each entry is lowered once. |
| Schedules.BuildKnockORate | exe/windows/bin/derivx_py/0.6.4/test_derivx_autocall_snowball_gpu.py:286-290 | `knock_o_rate` starts as n copies of `knock_o_ratio` and ends as the linear schedule `knock_o_ratio - i * knock_o_steps`. |
| Schedules.LinearStepDownShape | exe/windows/bin/derivx_py/0.6.4/test_derivx_autocall_snowball_gpu.py:286-290 | That schedule has n entries. A zero step leaves every entry at `knock_o_ratio`, and a positive step makes it strictly decreasing. |
| Schedules.Arange | exe/windows/bin/derivx_py/0.6.4/test_derivx_autocall_snowball_gpu.py:301 | `np.arange(start, stop, step)` fails for a zero step. Otherwise it has ceil((stop - start) / step) points, or none when that is negative, and point i is start + i * step. |
| Schedules.ArangeIncludesBounds | exe/windows/bin/derivx_py/0.6.4/test_derivx_autocall_snowball_gpu.py:297-301 | `arange(lo, hi + step, step)` with hi - lo a whole number k of steps gives k + 1 strictly ascending points from lo to hi, both included. |
| Surface.SliceBound | exe/windows/bin/derivx_py/0.6.4/test_derivx_autocall_snowball_gpu.py:151 | A slice bound counts from the end when negative and is clamped to [0, len]. |
| Surface.Slice | exe/windows/bin/derivx_py/0.6.4/test_derivx_autocall_snowball_gpu.py:151 | `row[a:b]` holds the entries from the normalised a up to the normalised b, and is empty when they cross. |
| Surface.Reverse | exe/windows/bin/derivx_py/0.6.4/test_derivx_autocall_snowball_gpu.py:151-152 | `[::-1]` keeps the length and puts entry n-1-i at position i. |
| Surface.DayLabels | exe/windows/bin/derivx_py/0.6.4/test_derivx_autocall_snowball_gpu.py:153 | Column j is labelled with day `run_from + j + 1`. There are `run_days` labels, or none when `run_days` is not positive. |
| Surface.Export | exe/windows/bin/derivx_py/0.6.4/test_derivx_autocall_snowball_gpu.py:150-155 | The export succeeds if and only if the grid is a non-empty rectangle, `calc_price` has one label per row and the cut window has one column per day label. An empty grid, a ragged grid and a label-count mismatch each give their own error. The sharkfin copy at test_derivx_barrier_sharkfin.py:157-162 is the same. |
| Surface.ExportWindow | exe/windows/bin/derivx_py/0.6.4/test_derivx_autocall_snowball_gpu.py:151-153 | With the window inside the simulated days, exported row r is grid row n-1-r cut to exactly `[run_from, run_from + run_days)`. It is labelled `calc_price[n-1-r]`, and column j is day `run_from + j + 1`. |
| Surface.ExportPastLastDay | exe/windows/bin/derivx_py/0.6.4/test_derivx_autocall_snowball_gpu.py:151-153 | A window running past the last day is clamped by numpy to fewer columns, and pandas then refuses the day labels. |
| Surface.ExportDayLabelsError | exe/windows/bin/derivx_py/0.6.4/test_derivx_autocall_snowball_gpu.py:150-155 | Once the grid is a non-empty rectangle with one price per row, a failed export is pandas refusing the day labels. |
| Surface.ExportReversesRows | exe/windows/bin/derivx_py/0.6.4/test_derivx_barrier_sharkfin.py:158-159 | In every successful export, rows come bottom to top, each under its own price. |
| Tasks.HandlePy | exe/windows/bin/derivx_py/0.6.4/test_derivx_autocall_snowball_gpu.py:167-176 | The callback parses `result_data` if and only if the code compares equal to 0 and the data decodes. It reports code and info if and only if the code is non-zero and info is present. Every other path is a caught exception. |
| Tasks.HandleJs | exe/windows/bin/derivx_js/0.6.4/test_derivx_barrier_sharkfin.js:141-156 | The callback parses if and only if the code is the number 0 and the data decodes. It logs code and info, possibly undefined, if and only if the code is not 0. A parse failure is caught. |
| Tasks.HandlersAgree | exe/windows/bin/derivx_js/0.6.4/test_derivx_barrier_sharkfin.js:143-150 | For a numeric code with an info text, the two languages' callbacks behave alike. |
| Tasks.HandlersDiffer | exe/windows/bin/derivx_js/0.6.4/test_derivx_barrier_sharkfin.js:144-145 | With no code, Python raises and catches KeyError while JavaScript logs undefined. A code of False is success in Python and failure in JavaScript. |
| Tasks.Event.constructor | exe/windows/bin/derivx_py/0.6.4/test_derivx_autocall_snowball_gpu.py:53 | A new `threading.Event` is not set. |
| Tasks.Event.Set | exe/windows/bin/derivx_py/0.6.4/test_derivx_autocall_snowball_gpu.py:176 | `set()` raises the flag and counts one more signal. |
| Tasks.Event.Clear | exe/windows/bin/derivx_py/0.6.4/test_derivx_barrier_sharkfin.py:302 | `clear()` lowers the flag. |
| Tasks.OnResultPy | exe/windows/bin/derivx_py/0.6.4/test_derivx_barrier_sharkfin.py:164-173 | The callback's outcome is `HandlePy`, and the event is set exactly once, on every path. |
| Tasks.SubmitAndWaitPy | exe/windows/bin/derivx_py/0.6.4/test_derivx_barrier_sharkfin.py:302-311 | The clear/submit/wait sequence reports `ProtocolPy`. The result is handled before the wait ends if and only if the report is Finished. The event ends set exactly when a callback ran, including a late one, and stays cleared after a refusal. A `timeout_wait` above the Windows wait limit stops the script. |
| Tasks.ProtocolPyTimeouts | exe/windows/bin/derivx_py/0.6.4/test_derivx_barrier_sharkfin.py:305-311 | A timeout happens if and only if the submission was accepted with an id, `timeout_wait` is within the wait limit and the callback missed it. A refusal happens if and only if the code is non-zero and info is present, so a refused task is never reported as a timeout. |
| Tasks.AbortController.constructor | exe/windows/bin/derivx_js/0.6.4/test_derivx_barrier_sharkfin.js:299 | A new controller's signal is not aborted. |
| Tasks.AbortController.Abort | exe/windows/bin/derivx_js/0.6.4/test_derivx_barrier_sharkfin.js:155 | `abort()` aborts the signal and counts one more abort. |
| Tasks.Script.constructor | exe/windows/bin/derivx_js/0.6.4/test_derivx_barrier_sharkfin.js:45 | `event_task_finish` starts as null. |
| Tasks.OnResultJs | exe/windows/bin/derivx_js/0.6.4/test_derivx_barrier_sharkfin.js:141-156 | The callback's outcome is `HandleJs`, and the controller held at that moment is aborted exactly once, on every path. |
| Tasks.SubmitAndWaitJs | exe/windows/bin/derivx_js/0.6.4/test_derivx_barrier_sharkfin.js:299-311 | A fresh controller is created per submission, and the report is `ProtocolJs`. The result is handled before the wait ends if and only if the report is Finished. The controller ends aborted exactly when a callback ran, and stays unaborted after a refusal. The timer runs for `timeout_wait * 1000` ms, or for 1 ms when Node rejects that delay. |
| Tasks.DeadlinesAgree | exe/windows/bin/derivx_js/0.6.4/test_derivx_barrier_sharkfin.js:307 | While `timeout_wait * 1000` is a delay Node accepts (1 to 2^31 - 1 ms), the timer gives up exactly when Python's `wait(timeout_wait)` does. |
| Tasks.ProtocolsAgree | exe/windows/bin/derivx_js/0.6.4/test_derivx_barrier_sharkfin.js:303-310 | For a numeric code with info and id present, and a `timeout_wait` within Node's timer range, both protocols report the same thing, and a timeout carries the tasker id. |
| Tasks.ProtocolsPartBeyondTimerMax | exe/windows/bin/derivx_js/0.6.4/test_derivx_barrier_sharkfin.js:307 | Outside that range the scripts part. With `timeout_wait` = 3000000 and a callback at 10 s, Python reports the result and JavaScript a timeout. With 5000000, Python's wait raises OverflowError. |
| Tasks.WokenAlone | exe/windows/bin/derivx_py/0.6.4/test_derivx_barrier_sharkfin.py:302-311 | With no earlier callback pending, a wait ends in time exactly when the Python and JavaScript protocols report Finished. |
| Tasks.LateCallbackEndsNextWaitPy | exe/windows/bin/derivx_py/0.6.4/test_derivx_barrier_sharkfin.py:302-311 | A task times out, and its callback comes while the next submission waits. The shared event then ends that wait in success, although the next task's own callback never comes. Alone, the next wait would time out. |
| Tasks.TwoSubmissionsPy | exe/windows/bin/derivx_py/0.6.4/test_derivx_barrier_sharkfin.py:302-311 | Two submissions on one shared event. The first times out as `ProtocolPy` says. The late `set()` of its callback then makes the second report Finished, although for that submission alone `ProtocolPy` reports a timeout. |
| Tasks.LateCallbackEndsNextWaitJs | exe/windows/bin/derivx_js/0.6.4/test_derivx_barrier_sharkfin.js:299-310 | The same in JavaScript. The late `abort()` lands on the next submission's fresh controller, and its wait reports success. |
| Tasks.GreeksLoop | exe/windows/bin/derivx_js/0.6.4/test_derivx_barrier_sharkfin.js:338-344 | One descriptor per flag, in order. Each carries the previous record with that flag set, to the same plugin, distribution and timeout, with the method fixed at greeks. The loop ends on the last one. |
| SnowballDemo.BuildDemoConfig | exe/windows/bin/derivx_py/0.6.4/test_derivx_autocall_snowball_gpu.py:203-310 | The script's assignments, including the step-down loop and the price grid, produce exactly the demonstration record. |
| SnowballDemo.RunScript | exe/windows/bin/derivx_py/0.6.4/test_derivx_autocall_snowball_gpu.py:319-373 | The descriptor targets `derivx_autocall_snowball_gpu`, runs locally (0) and waits 3600 s with the demonstration record. It is set to coupon, then to payoff. The greeks loop then builds five descriptors to the same plugin, each carrying the record with `calc_greek` set to d, g, v, t, r in turn. The submissions are commented out in the script. |
| SnowballDemo.DemoConfigFacts | exe/windows/bin/derivx_py/0.6.4/test_derivx_autocall_snowball_gpu.py:273-313 | The record has 22 strictly ascending observation days ending at `runs_step` = 488, and 22 knock-out ratios all at `knock_o_ratio`. It has 41 ascending prices from 65 to 105, so the grid is 41 by 488 and the day-1 window lies inside it. |
| SnowballDemo.CommentedStepDowns | exe/windows/bin/derivx_py/0.6.4/test_derivx_autocall_snowball_gpu.py:278-282 | The commented-out `MakeStepDown(24, 3, ..., 4, 0.01)` yields one ratio per observation day (22). `MakeStepDown(36, 6, ..., 9, 0.005)` yields 31. |
| SnowballDemo.RunGreeks | exe/windows/bin/derivx_py/0.6.4/test_derivx_autocall_snowball_gpu.py:367-373 | The loop builds five descriptors with the greeks method, the ones the commented-out submissions would send. Each carries the record with only `calc_greek` set to d, g, v, t, r in turn, so its serialisation differs from the original at `calc_greek` alone. |
| SnowballDemo.GreeksPayloads | exe/windows/bin/derivx_py/0.6.4/test_derivx_autocall_snowball_gpu.py:371-373 | Setting `calc_greek` repeatedly leaves the record equal to the original with only the latest flag set. |
| SharkfinDemo.ExerciseOf | exe/windows/bin/derivx_py/0.6.4/test_derivx_barrier_sharkfin.py:55-56 | Exactly the codes 1 (European) and 2 (American) name a style, and each style codes back to its number. |
| SharkfinDemo.FinOf | exe/windows/bin/derivx_py/0.6.4/test_derivx_barrier_sharkfin.py:58-60 | Exactly the codes 1 (up call), 2 (down put) and 3 (double) name a sharkfin, and each codes back to its number. |
| SharkfinDemo.CodesRoundTrip | exe/windows/bin/derivx_js/0.6.4/test_derivx_barrier_sharkfin.js:41-52 | Distinct styles and sharkfins have distinct codes that read back to themselves, and the three method codes differ. |
| SharkfinDemo.FreshRecordUncoded | exe/windows/bin/derivx_py/0.6.4/test_derivx_barrier_sharkfin.py:84-85 | The 0 a fresh record holds in `option_type` and `barrier_type` names no style and no sharkfin. |
| SharkfinDemo.BuildDemoConfig | exe/windows/bin/derivx_py/0.6.4/test_derivx_barrier_sharkfin.py:200-277 | The script's assignments, including the price grid, produce exactly the demonstration record. The JavaScript script, at test_derivx_barrier_sharkfin.js:195-272, assigns the same values. |
| SharkfinDemo.RunScript | exe/windows/bin/derivx_py/0.6.4/test_derivx_barrier_sharkfin.py:286-340 | The descriptor targets `derivx_barrier_sharkfin`, runs locally (0) and waits 3600 s with the demonstration record. It is set to price, then to payoff. The greeks loop then builds five descriptors to the same plugin, each carrying the record with `calc_greek` set to d, g, v, t, r in turn. The submissions are commented out in both scripts. |
| SharkfinDemo.DemoConfigFacts | exe/windows/bin/derivx_py/0.6.4/test_derivx_barrier_sharkfin.py:218-280 | The record is an American double sharkfin with h_l < k_l <= k_h < h_h and the start price between the barrier prices. It has 21 ascending prices from 90 to 110, so the grid is 21 by 244 and the day-1 window lies inside it. |
| SharkfinDemo.RunGreeks | exe/windows/bin/derivx_py/0.6.4/test_derivx_barrier_sharkfin.py:334-340 | The loop builds five descriptors with the greeks method, the ones the commented-out submissions would send. Each carries the record with only `calc_greek` changed, so successive serialisations differ at `calc_greek` alone. |
| SharkfinDemo.GreeksPayloads | exe/windows/bin/derivx_js/0.6.4/test_derivx_barrier_sharkfin.js:342-344 | Setting `calc_greek` repeatedly leaves the record equal to the original with only the latest flag set. |

## Left out

- The pricing kernel is foreign code. This covers `cyberx.Kernel`, `AssignTask`, `syscfg` and `tasker.ToArgs`. The acknowledgement, the delivered envelope and the callback time are parameters.
- `FigureResult` (matplotlib), the `to_excel` write and all printing and logging are I/O. The export is modelled up to the table it would write.
- Real threads and timers are not modelled. The callback's time is a parameter, and a callback that never comes is `None`.
- Tasks.SubmitAndWaitPy: a callback that comes after the wait gave up runs within the same call, on this submission's event. In the scripts it may run during the next submission's wait and end that wait early. The same holds for Tasks.SubmitAndWaitJs, whose late `abort()` reaches the next submission's controller. The two `LateCallbackEndsNextWait` lemmas state this hazard, and `TwoSubmissionsPy` plays it on one shared event for a single scenario. The JavaScript form has no such method.
- Tasks.ProtocolPy: the Windows wait limit (`threading.TIMEOUT_MAX`, about 4294967.29 s) is used, since the scripts ship for Windows. A callback that finishes before `wait` is even called would avoid the OverflowError; the model ignores that race.
- Tasks.HandlePy: return codes are integers or booleans. A float code such as `0.0` would be a success for Python's `!= 0`, but the model treats it as a non-numeric value and reports it.
- Tasks.HandlersAgree: one notion of "decodable" stands for both `json.loads` and `JSON.parse`. They differ on `NaN` and `Infinity` and on a `result_data` that is not a string, and the model does not capture that difference.
- Floating point is not modelled. Ratios and prices are reals, so rounding in `np.arange`, `np.append` and the ratio subtraction is absent.
- JSON text is not modelled. The serialisation is a map from attribute to value, with attribute names given by `Name`. Key order, number formatting and escaping are absent.
- The record is kept as a value in a descriptor's `commonArgs`, not as its JSON text. `EncodeInjective` shows that no information is lost this way.
- SnowballJson.DecodeEncode: the converse round trip, encoding a decoded well-typed map, is not proved. The same holds for SharkfinJson.DecodeEncode. The scripts never decode a record.
- The distinctness of the attribute names returned by `Name` is not proved.
- Configuration records are values. An attribute assignment becomes a record update. The scripts never alias a record, so no aliasing is modelled.
- Tasks.HandlePy: Python's `True == 1` is not modelled. A code of `True` is treated as a non-zero code, like any non-numeric value.
- Tasks.OnResultJs: the case where `event_task_finish` is still null when a callback runs is excluded by its precondition. In the script a TypeError would then escape the callback.
- The synchronous `AssignTask` variants are not modelled. They handle the envelope like the callbacks but without the try/except, so a missing key or undecodable data stops the script.
- Schedules.Arange: it follows numpy's `np.arange`. The JavaScript script uses numjs's `nj.arange`, a `while (start < stop)` loop. That loop agrees for a positive step, but for a zero or negative step with start < stop it never ends, where numpy raises (zero step) or returns an empty array (negative step).
- There is no validation code in the scripts, so none is modelled. This applies to the equal lengths of `knock_o_days` and `knock_o_rate` and to the barrier ordering. Both appear only as facts about the demonstration data, in the two `DemoConfigFacts` lemmas.
- The comment tables next to the commented-out `MakeStepDown` calls (test_derivx_autocall_snowball_gpu.py:279-280 and :283-284) list 24 and 32 entries. The function yields 22 and 31, and the second schedule starts with a flat block the table omits. The model follows the function.
- Row reversal: the code reverses the rows together with their price labels, so the model does the same.
- The Monte-Carlo pricing, the greeks computation and random-number generation run inside the kernel.
