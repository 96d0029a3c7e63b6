# UDP-tunnel console core, in Dafny

A model of the logic inside the browser console of the UDP-tunnel IoX
module (`static/module.js`). The console talks to either a *dispatcher*
or a *collector* module: it probes the module's `stats` endpoint once to
tell which, keeps a trailing window of stats samples, turns cumulative
byte counters into per-second rates for the charts, and offers a form
that reads, edits, writes back and reloads the module's configuration.

Modules:

- `Rates` (`rates.dfy`): `arrayDelta` as a method with a loop, proved
  equal to the specification function `Deltas`; per-step outcomes are
  `NaN`, `Infinity` or an exact finite rate.
- `Window` (`window.dfy`): the `Stats` component's two parallel arrays as
  a class with a `Collect(now, payload)` method; the trim scan as its own
  method; lemmas that the newest sample survives, that an ascending window
  lies within `[now - 375000, now]` and that one sampled every 2000 ms
  holds at most 188 samples.
- `Text` (`text.dfy`): `toUpperCase` on ASCII letters and the default
  string sort as insertion sort, proved sorted and a permutation.
- `Remote` (`remote.dfy`): configuration values and the outgoing request
  log that stands in for the remote calls.
- `Config` (`config.dfy`): the `Configuration` component as a class whose
  methods are the button handlers, the response handlers and the control
  change events, and pure functions for the form's rendering.
- `Console` (`console.dfy`): variant detection, the per-variant field
  lists, the root's render dispatch and the chart's datasets.
- `Payload` (`payload.dfy`), `Wrappers` (`wrappers.dfy`): the stats payload
  shape and an `Option` type.

Remote calls are modelled as a request appended to a log, and their
responses as separate handler methods that can be called in any order.
The clock value of a collect is a parameter.

Behaviour the model takes from the code, where a reader might expect
otherwise:

- A `getConfig` response is applied with React's `setState`, which is a
  shallow merge (`Config.Merge`). Keys absent from the response,
  including the initial `Verbose: false`, survive. The response does not
  replace the draft wholesale.
- A zero time difference between two samples is not guarded. A positive
  counter delta then gives `Infinity`, and a zero delta gives `NaN`
  (`0 * Infinity`). `Rates.Rate` models both outcomes. No precondition
  excludes them.
- The trim only guarantees that the first retained timestamp is not
  older than `now - 375000`. When the console's clock went backwards it
  can be later than `now`. Every retained sample lies in
  `[now - 375000, now]` only when the timestamps are ascending
  (`Window.TrimmedInRange`).
- Rendering the `Encoding` field throws a TypeError in two cases. One is
  when the encoding list has not arrived yet (`this.encodings` is
  undefined). The other is when the field's value is a boolean and the
  list is non-empty. `Config.FieldView.Failed` stands for both. The error
  escapes `fields.map(renderField)`, so the whole form's render throws,
  buttons included (`Config.FormView.FormFailed`). What the page then
  shows is up to React. This happens, for one, when Refresh is pressed
  before the encoding list arrives.

## Model

| member | source | states |
|---|---|---|
| `Rates.RateBetween` | static/module.js:35-42 | a rate is finite iff the counter did not decrease and time strictly advanced; a counter reset or time going backwards gives NaN even if the other difference is positive; zero time difference gives Infinity for growth and NaN for no growth; a finite rate is non-negative and times the interval gives back the counter delta per 1000 ms |
| `Rates.Deltas` | static/module.js:31-47 | the rate series has length `|input|` (1 for empty input), entry 0 is NaN, entry i > 0 is the rate between samples i-1 and i |
| `Rates.ArrayDelta` | static/module.js:31-47 | the `push` loop builds exactly the series `Deltas` specifies |
| `Rates.DeltasIntegrate` | static/module.js:37-42 | for counters that never decrease over strictly increasing times every rate after the first is finite, and rate times interval summed over the series equals the counter's total growth |
| `Rates.StepTransferred` | static/module.js:37-42 | one well-ordered step yields a finite rate whose product with the interval is the counter delta |
| `Rates.CounterResetExample` | static/module.js:39-40 | samples (0 ms, 100) then (1000 ms, 40) give `[NaN, NaN]` |
| `Rates.ClockSkewExample` | static/module.js:38-40 | samples (1000 ms, 10) then (500 ms, 20) give NaN as second rate although the counter grew |
| `Window.StaleRun` | static/module.js:96-102 | the dropped prefix is the maximal leading run of times below the cutoff: every dropped time is below it and the first kept one, if any, is not |
| `Window.StaleRunUnique` | static/module.js:97-102 | any prefix length with those two properties is the stale run |
| `Window.ScanStale` | static/module.js:97-102 | the `while` scan stops at exactly the stale run's length |
| `Window.NewestKept` | static/module.js:92-99 | the sample appended at `now` is never dropped, since `now >= now - 375000` |
| `Window.StatsWindow.constructor` | static/module.js:81-86 | the window starts with no timestamps and no data |
| `Window.StatsWindow.Collect` | static/module.js:91-106 | appends one timestamp and one payload, then drops the same stale prefix from both; the arrays keep equal length, order is unchanged, and the window ends with the new sample |
| `Window.TrimmedSuffix` | static/module.js:92-106 | for any window, the kept times are a non-empty suffix of the appended window ending at `now` |
| `Window.TrimmedInRange` | static/module.js:96-106 | on an ascending window every kept time lies in `[now - 375000, now]` |
| `Window.WindowBounded` | static/module.js:3-4 | samples at least 2000 ms apart within a 375000 ms horizon number at most 188 |
| `Window.SteadyStateBound` | static/module.js:92-106 | collecting at least 2000 ms apart keeps the window at 188 samples or fewer however long it runs |
| `Text.Upper` | static/module.js:208 | upper-casing keeps the length, maps each character, and leaves no lower-case ASCII letter |
| `Text.UpperIdempotent` | static/module.js:208-210 | upper-casing an upper-cased string changes nothing |
| `Text.Sort` | static/module.js:195 | the cached encoding list is sorted and is a permutation of the response |
| `Config.Merge` | static/module.js:169 | a read sets every returned key to its returned value and keeps every other key of the draft |
| `Config.MakeOptions` | static/module.js:207-215 | one option per encoding, captioned with its upper-case form, selected iff it equals the upper-cased draft value |
| `Config.RenderField` | static/module.js:201-230 | a field is shown iff its key is in the draft; only `Encoding` becomes a select; other fields become a checkbox for a boolean and a text box for text, showing the draft value; the select lists every encoding and selects those matching the draft case-insensitively; rendering fails iff the field is `Encoding` and the list is missing, or is non-empty while the value is a boolean |
| `Config.RenderForm` | static/module.js:242-244 | the form fails as a whole iff some field's rendering throws; otherwise one rendered view per configured field, in order |
| `Config.FormFailsOnlyOnEncoding` | static/module.js:206-215 | the form fails iff it has an `Encoding` field whose rendering throws; a rendered form hides exactly the fields absent from the draft |
| `Config.RefreshBeforeEncodingsFails` | static/module.js:166-171 | a read that returns `Encoding` before the encoding list is cached makes the render of a form with an encoding field throw |
| `Config.ConfigForm.constructor` | static/module.js:160-164 | the draft starts as `Verbose: false`, no encodings, no request issued |
| `Config.ConfigForm.GetConfig` | static/module.js:166-171 | issues exactly one read and changes nothing else |
| `Config.ConfigForm.OnConfig` | static/module.js:169 | the draft becomes the shallow merge of the old draft and the response |
| `Config.ConfigForm.SetConfig` | static/module.js:173-179 | sends the whole current draft and changes nothing else |
| `Config.ConfigForm.OnSaved` | static/module.js:176 | completion of a save issues exactly one read |
| `Config.ConfigForm.ReloadConfig` | static/module.js:181-187 | issues one reload request and changes nothing else |
| `Config.ConfigForm.OnReloaded` | static/module.js:184 | completion of a reload issues exactly one read |
| `Config.ConfigForm.Mount` | static/module.js:189-198 | requests the encodings iff `Encoding` is a field, otherwise reads the configuration directly |
| `Config.ConfigForm.OnEncodings` | static/module.js:195 | caches the sorted permutation of the encodings, then issues exactly one read |
| `Config.ConfigForm.CheckboxChanged` | static/module.js:222 | only the edited key changes, to the checkbox state |
| `Config.ConfigForm.TextChanged` | static/module.js:229 | only the edited key changes, to the typed text |
| `Config.ConfigForm.EncodingChosen` | static/module.js:208-210 | choosing an encoding stores its upper-cased form under `Encoding` only |
| `Config.ConfigForm.Render` | static/module.js:242-244 | the whole render throws iff the form has an `Encoding` field that throws; otherwise one view per field, hidden iff the field is absent from the draft |
| `Config.ReadIdempotent` | static/module.js:169 | reading the same descriptor twice leaves the draft as one read does |
| `Config.ReadWinsOverEdit` | static/module.js:169 | a read overrides any local edit of a key it returns |
| `Config.EditIsLocal` | static/module.js:201-230 | an edit changes the rendering of the edited field only |
| `Config.EditOutsideFieldsInvisible` | static/module.js:244 | an edit of a key that is not a form field leaves the whole form's rendering unchanged |
| `Config.ChosenEncodingSelected` | static/module.js:207-215 | after choosing an encoding, exactly the options with its upper-case form are shown selected |
| `Config.CheckboxRoundTrip` | static/module.js:216-222 | after toggling a non-encoding field, it renders as a checkbox showing the new state |
| `Console.Detect` | static/module.js:340 | a payload with an `Urgent` group is a collector, any other is a dispatcher, never unknown |
| `Console.Render` | static/module.js:344-351 | the unknown state renders nothing; each variant renders its own fixed config and stat field lists |
| `Console.EncodingsOnlyForCollector` | static/module.js:306-317 | the detected module's form has an `Encoding` field iff the probed stats carry an `Urgent` group |
| `Console.Project` | static/module.js:296-297 | the accessor's counter and the payload's `ElapsedMS`, one sample per payload |
| `Console.Datasets` | static/module.js:150-153 | one rate series per stat field, each the rate transform of that field's counter over the window |
| `Console.DatasetsAligned` | static/module.js:150-153 | once the window is non-empty, every series has one point per timestamp label and starts with NaN |
| `Console.ModuleView.constructor` | static/module.js:330-334 | the root starts in the unknown state with no request |
| `Console.ModuleView.Mount` | static/module.js:336-341 | mounting issues exactly one stats probe |
| `Console.ModuleView.OnProbe` | static/module.js:340 | the probe's response fixes the variant by detection |

## Left out

- Loading Chart.js, `makeDataset` styling, the `RightTimeScale` tick shift, the `ReactChart` canvas and all markup and tabs (`ConfStatModule` is reduced to `Console.View.ConfStat`). These are rendering by foreign libraries.
- The `remoteCallback` transport, `setInterval`/`clearInterval` (the collect and redraw timers and their teardown in `componentWillUnmount`) and `Date`. Requests are a log, responses are handler calls, clock values are parameters.
- Interleaving of overlapping in-flight requests. Each response is a separate handler call in whatever order the caller chooses.
- IEEE-754 rounding of the rate division. Rates are exact reals over integer counters and milliseconds.
- Text.Upper: upper-cases ASCII letters only, not the full Unicode mapping of `toUpperCase`.
- Text.Sort: orders by Unicode code point, where JavaScript compares UTF-16 code units. The two differ only for characters above U+FFFF.
- Console.Project: requires every payload to carry the group the accessor reads. In the source, a missing group throws a TypeError inside the chart render.
- Console.Datasets: carries the same requirement as `Console.Project`, for every stat field, for the same reason.
- Whether the browser delivers a change event to an `<option>` element is outside the model. `EncodingChosen` is the handler that such an event would run.
- Payload fields other than `ElapsedMS` and the byte counters of each group.
