# MTCM Edge dashboard — a Dafny model

MTCM Edge is a React web dashboard for a monitored machine tool. It polls an
edge backend and shows:

- the machine's two energy meters as gauges and as a history chart;
- eight temperature sensors (four PT100 RTDs, four thermocouples) as
  thermometers and as an hourly chart;
- the vibration axes with an FFT spectrum, live or for a chosen date;
- four voltage and four current inputs;
- seven digital inputs and seven digital outputs, on two screens (DIO and
  E-TOP) that default missing values differently;
- an OEE (Overall Equipment Effectiveness) calculator with loss analysis and
  a seven-day history;
- a printable daily report.

All of this sits inside an application shell. The shell has an error
boundary, a responsive navigation sidebar driven by a debounced resize
handler, and a product carousel.

This project models what those screens compute and how their state changes:

- The parts that only compute — formulas, classifications, the defaulting
  rules of JavaScript's `||`, `??` and `parseFloat`, and summaries — are
  datatypes, functions and lemmas.
- Each screen whose fields change is a `class`. Its `fetchData` handler is a
  method that takes the outcome of the request as a parameter: a response
  with a status and a decoded body (`Fetch.Fetched.Response`), or a thrown
  error (`Fetch.Fetched.Failed`). It states the new state for every outcome.
- The shared JavaScript semantics live in `JsValues`:
  - truthiness, `||` and `??` on optional JSON values;
  - `parseFloat` (`None` stands for NaN), with a leading-digits parser for
    text;
  - `Math.round` and rounding to one decimal;
  - string `<=` (lexicographic) and `String.prototype.includes`.
- `Stats` holds sums, means, minima and maxima, and the fact that a mean lies
  between the minimum and the maximum.

## Model

| member | source | states |
|---|---|---|
| JsValues.OrDefault | mtcm/src/Components/Digital/DIO.js:111 | `v \|\| d` yields the default exactly for a falsy value (missing, null, false, 0, "") and the value itself otherwise |
| JsValues.Nullish | mtcm/src/Components/E-TOP/ETOP.js:125 | `v ?? d` yields the default only for a missing or null value and keeps every other value, falsy ones included |
| JsValues.NullishKeepsWhatOrReplaces | mtcm/src/Components/E-TOP/ETOP.js:125 | on a falsy value that is not null and differs from the default, `??` and `\|\|` give different results |
| JsValues.ParseFloat | mtcm/src/Components/MachineStatus/MSGraph.js:57 | `parseFloat` returns a number unchanged and NaN for a missing, null or boolean value |
| JsValues.ParseOrZero | mtcm/src/Components/Vibration/Vibration.js:68 | `parseFloat(v) \|\| 0` is 0 exactly where parsing gives NaN, otherwise the parsed number |
| JsValues.NatToStringParses | mtcm/src/Components/MachineStatus/MSGraph.js:38 | the decimal text of a status code parses back to that code |
| JsValues.NatToStringInjective | mtcm/src/Components/MachineStatus/MSGraph.js:38 | distinct status codes have distinct decimal texts |
| JsValues.Round | mtcm/src/Components/OEE/OEE.js:65 | `Math.round(x)` is within half a unit of `x`, rounding halves up |
| JsValues.Round1 | mtcm/src/Components/OEE/OEE.js:61 | `Math.round(x * 10) / 10` is a whole number of tenths within 0.05 of `x` |
| JsValues.RoundMonotone | mtcm/src/Components/OEE/OEE.js:290 | `Math.round` never reverses an order, so a quoted loss range runs low to high |
| JsValues.LexLeTransitive | mtcm/src/Components/MachineStatus/MSGraph.js:46 | string `<=` as used by the time-window filter is transitive |
| JsValues.LexLeTotal | mtcm/src/Components/MachineStatus/MSGraph.js:46 | any two clock strings are ordered one way or the other |
| JsValues.IncludesIffOccurs | mtcm/src/App.js:204 | `includes` holds exactly when the pattern occurs at some position |
| Stats.MeanBetweenMinMax | mtcm/src/Components/Temperature/TempGraph.js:132-134 | the mean of a non-empty series lies between its minimum and its maximum |
| OEE.InputValue | mtcm/src/Components/OEE/OEE.js:40 | `parseFloat(value \|\| 0)`: an empty field reads as 0, non-empty text (what the form supplies) is parsed as `parseFloat` parses it, and a number is itself |
| OEE.CalculateOEE | mtcm/src/Components/OEE/OEE.js:39-71 | each stored percentage is a whole number of tenths within 0.05 of the exact availability, performance, quality and their product over 10000; each count (available, scheduled and break minutes, good and theoretical parts) is within 0.5 of the exact one |
| OEE.WithInput | mtcm/src/Components/OEE/OEE.js:92-97 | read field by field, the named input takes the new value and every other input keeps its own |
| OEE.ReferenceShift | mtcm/src/Components/OEE/OEE.js:35-71 | a regular 480-minute shift with a 60-minute break and 25200 good parts gives 87.5 / 100 / 100 / 87.5 with 420, 25200, 25200, 480, 60 |
| OEE.AvailabilityIsPercentage | mtcm/src/Components/OEE/OEE.js:40-45 | with a scheduled shift and a non-negative break that fits, availability is in [0, 100) |
| OEE.QualityIsPercentage | mtcm/src/Components/OEE/OEE.js:53-55 | scrap between 0 and the parts made keeps quality in [0, 100], and quality is 100 exactly when there is no scrap |
| OEE.PerformanceAboveFull | mtcm/src/Components/OEE/OEE.js:48-50 | performance exceeds (equals) 100 exactly when more (exactly as many) parts were made than the theoretical count |
| OEE.OeeBounded | mtcm/src/Components/OEE/OEE.js:58 | the OEE of three percentages is a percentage no larger than any factor |
| OEE.IdealRunIsAvailability | mtcm/src/Components/OEE/OEE.js:45-58 | at full speed with no scrap, performance and quality are 100 and OEE equals availability |
| OEE.GetOEEStatus | mtcm/src/Components/OEE/OEE.js:99-104 | Excellent iff oee ≥ 85, Good iff 70 ≤ oee < 85, Fair iff 60 ≤ oee < 70, Poor iff oee < 60 |
| OEE.StatusMonotone | mtcm/src/Components/OEE/OEE.js:99-104 | a higher OEE never falls into a lower band |
| OEE.LossPanelStatus | mtcm/src/Components/OEE/OEE.js:347-349 | "World Class" iff oee ≥ 85, "Good" iff 70 ≤ oee < 85, "Fair" iff 60 ≤ oee < 70, "Poor" iff oee < 60 |
| OEE.PanelsAgree | mtcm/src/Components/OEE/OEE.js:347-349 | the loss panel's word is "World Class" exactly when the badge says Excellent, and the badge's word otherwise |
| OEE.MakeLoss | mtcm/src/Components/OEE/OEE.js:290 | a loss entry keeps its kind and quotes the range `Math.round(loss × low factor)`–`Math.round(loss × high factor)`, each end within 0.5 of its product, with 0 ≤ low ≤ high |
| OEE.MajorLosses | mtcm/src/Components/OEE/OEE.js:280-344 | one loss entry for each metric below its target: availability and performance below 85, quality below 95 |
| OEE.LossesOnePerCategory | mtcm/src/Components/OEE/OEE.js:280-344 | at most three losses, in availability, performance, quality order, each range low to high |
| OEE.LossesMatchThresholds | mtcm/src/Components/OEE/OEE.js:284-341 | a category has a loss iff its metric is below its target (85, 85, 95); the severe kind is chosen iff the loss exceeds 10, 15 or 8 points |
| OEE.Recommendations | mtcm/src/Components/OEE/OEE.js:661-679 | at most four cards, none twice, and the excellence card, when shown, comes last |
| OEE.RecommendationsMatchLosses | mtcm/src/Components/OEE/OEE.js:661-679 | each issue card shows iff its category is in the loss analysis; the excellence card shows iff the status is Excellent |
| OEE.AvgOEE | mtcm/src/Components/OEE/OEE.js:407 | the history's average OEE lies between its worst and its best day |
| OEE.ProductionLossVsPerformance | mtcm/src/Components/OEE/OEE.js:408-412 | when the available time allows a whole, positive number of parts, the production loss of the calculated results is positive iff performance is below 100 percent and zero iff it is exactly 100 |
| OEE.Calculator.constructor | mtcm/src/Components/OEE/OEE.js:5-32 | the `useState` values before the mount effects: zero inputs and results; six fixed history days then today's zero entry (mount then runs `Recalculate` and `UpdateHistory`) |
| OEE.Calculator.HandleInputChange | mtcm/src/Components/OEE/OEE.js:92-97 | only the named input changes |
| OEE.Calculator.Recalculate | mtcm/src/Components/OEE/OEE.js:73-75 | the results become `CalculateOEE` of the inputs |
| OEE.Calculator.UpdateHistory | mtcm/src/Components/OEE/OEE.js:78-90 | the history keeps its length and earlier days, and its last slot becomes today's results |
| OEE.Calculator.EditInput | mtcm/src/Components/OEE/OEE.js:73-97 | an edit flows through to the results and to today's history slot, keeping seven days with the first six fixed |
| Report.WithField | mtcm/src/Components/ReportGeneration/Report.js:29-35 | the named form field takes the value and every other field keeps its own |
| Report.FilledIffNoEmptyField | mtcm/src/Components/ReportGeneration/Report.js:82-85 | the required-field check passes iff no field is empty |
| Report.Coerced | mtcm/src/Components/ReportGeneration/Report.js:74 | one value per row, each `parseFloat(row[field]) \|\| 0` |
| Report.CalculateAverages | mtcm/src/Components/ReportGeneration/Report.js:62-79 | an empty map for absent or empty data, otherwise an entry for exactly the 27 listed fields |
| Report.AverageWithinReadings | mtcm/src/Components/ReportGeneration/Report.js:73-76 | each field's average lies between its least and greatest coerced reading |
| Report.UnparsableFieldAveragesZero | mtcm/src/Components/ReportGeneration/Report.js:74-75 | a field no row can parse averages to 0 |
| Report.ConstantFieldAveragesToIt | mtcm/src/Components/ReportGeneration/Report.js:73-76 | a field every row reports as the same number averages to that number |
| Report.PerThousand | mtcm/src/Components/ReportGeneration/Report.js:519 | the kW and kWh figures are one thousandth of the W and Wh averages |
| Report.Rpm | mtcm/src/Components/ReportGeneration/Report.js:619 | the RPM figure is 60 times the frequency |
| Report.PowerFactorStatus | mtcm/src/Components/ReportGeneration/Report.js:534 | normal iff pf > 0.8, warning iff 0.6 < pf ≤ 0.8, critical iff pf ≤ 0.6 |
| Report.Meter | mtcm/src/Components/ReportGeneration/Report.js:519-537 | a meter's kW, kWh and power-factor indicator from its averages |
| Report.TemplateFieldsPresent | mtcm/src/Components/ReportGeneration/Report.js:92 | every average the template reads exists once the day is non-empty |
| Report.PrintedOf | mtcm/src/Components/ReportGeneration/Report.js:92 | the printed figures of both meters and the RPM come from the day's averages |
| Report.FetchError | mtcm/src/Components/ReportGeneration/Report.js:37-60 | no error iff both requests answer and the day is non-empty; otherwise the first request's exception, then the second's, and for an absent or empty day "No data available for the selected date" |
| Report.ReportError | mtcm/src/Components/ReportGeneration/Report.js:720-721 | the shown error is the message, or a fixed text when the message is empty |
| Report.Generator.constructor | mtcm/src/Components/ReportGeneration/Report.js:17-27 | empty form, not generating, no data, no error |
| Report.Generator.HandleInputChange | mtcm/src/Components/ReportGeneration/Report.js:29-35 | the form becomes `WithField` of the old form |
| Report.Generator.GeneratePDF | mtcm/src/Components/ReportGeneration/Report.js:81-724 | a missing field stops before any fetch; a fetch error keeps the data and shows its message, which for an absent or empty day is "No data available for the selected date"; a good day is stored and printed from its averages; generating ends |
| MSGraph.FromLabel | mtcm/src/Components/MachineStatus/MSGraph.js:14-20 | an option text selects a graph type only if that type's label is the text |
| MSGraph.LabelRoundTrip | mtcm/src/Components/MachineStatus/MSGraph.js:14-20 | each graph type's label selects that type again |
| MSGraph.MappingPairsMeters | mtcm/src/Components/MachineStatus/MSGraph.js:22-28 | each graph type maps to one quantity, on meter 1 (spindle) and on meter 2 (machine) |
| MSGraph.MappingInjective | mtcm/src/Components/MachineStatus/MSGraph.js:22-28 | distinct graph types plot distinct fields |
| MSGraph.InWindow | mtcm/src/Components/MachineStatus/MSGraph.js:46 | a clock inside the window lies between start and end as strings, so only a window whose start does not follow its end holds a reading |
| MSGraph.Window | mtcm/src/Components/MachineStatus/MSGraph.js:44-47 | keeps exactly the readings whose clock lies between start and end, and no more of each than the input had |
| MSGraph.WindowKeepsCountsAndOrder | mtcm/src/Components/MachineStatus/MSGraph.js:44-47 | each reading in the window is kept as many times as the input holds it, every other reading is dropped, and the kept readings are in the input's order |
| MSGraph.ToPoint | mtcm/src/Components/MachineStatus/MSGraph.js:50-60 | both values are `parseFloat \|\| 0` of the mapped fields; the timestamp and the raw item are kept |
| MSGraph.ToPoints | mtcm/src/Components/MachineStatus/MSGraph.js:50-60 | the map step, reading by reading |
| MSGraph.InsertLast | mtcm/src/Components/MachineStatus/MSGraph.js:63 | inserting one more point extends the sorted prefix and permutes the array |
| MSGraph.SortByTimestamp | mtcm/src/Components/MachineStatus/MSGraph.js:63 | the points end up sorted by timestamp and are a permutation of the input |
| MSGraph.Summary | mtcm/src/Components/MachineStatus/MSGraph.js:296 | the summary is shown iff there is at least one point |
| MSGraph.SummaryWithinValues | mtcm/src/Components/MachineStatus/MSGraph.js:307-313 | both averages lie between the least and the greatest value they average |
| MSGraph.FailureMessage | mtcm/src/Components/MachineStatus/MSGraph.js:67 | the shown error is the fixed prefix followed by the cause |
| MSGraph.StatusMessagesDistinct | mtcm/src/Components/MachineStatus/MSGraph.js:37-39 | different HTTP statuses produce different error messages |
| MSGraph.Chart.constructor | mtcm/src/Components/MachineStatus/MSGraph.js:6-12 | window 00:00–23:59, energy graph, no points, no error |
| MSGraph.Chart.FetchData | mtcm/src/Components/MachineStatus/MSGraph.js:30-72 | a failure keeps the points and shows its message; otherwise the points are the window's processed readings, sorted by timestamp |
| MSGraph.FetchedPointsFromWindow | mtcm/src/Components/MachineStatus/MSGraph.js:44-63 | every fetched point is the processed form of a reading in the window, and there are no more points than readings |
| Temperature.TemperatureStatus | mtcm/src/Components/Temperature/Temperature.js:56-62 | the five bands at 20, 25, 30 and 35 degrees, each as an iff; NaN is Critical |
| Temperature.GradientHue | mtcm/src/Components/Temperature/Temperature.js:48-54 | blue iff the reading is below 20, red iff it is NaN or at least 35 |
| Temperature.GlowHue | mtcm/src/Components/Temperature/Temperature.js:118-124 | blue iff the reading is below 20, red iff it is NaN or at least 35 |
| Temperature.StatusTextHue | mtcm/src/Components/Temperature/Temperature.js:90-95 | red iff the status is Critical, blue iff it is Cool |
| Temperature.ColoursAgree | mtcm/src/Components/Temperature/Temperature.js:116-125 | the fill gradient, the glow and the status word's colour always name the same hue, NaN included |
| Temperature.StatusMonotone | mtcm/src/Components/Temperature/Temperature.js:56-62 | a hotter reading never lands in a cooler band |
| Temperature.Percentage | mtcm/src/Components/Temperature/Temperature.js:44-46 | on the 0–50 degree scale the percentage is twice the reading |
| Temperature.FillHeight | mtcm/src/Components/Temperature/Temperature.js:118 | the fill is the larger of the percentage and 8 |
| Temperature.FillNotClampedAbove | mtcm/src/Components/Temperature/Temperature.js:118 | above 50 degrees the fill exceeds 100 percent |
| Temperature.Readings | mtcm/src/Components/Temperature/Temperature.js:360-380 | the eight readings, in screen order, each `parseFloat` of its field |
| Temperature.AvgTemp | mtcm/src/Components/Temperature/Temperature.js:280-283 | 0 with no data; otherwise a number iff all eight readings are numbers |
| Temperature.AvgTempWithinReadings | mtcm/src/Components/Temperature/Temperature.js:280-283 | with eight numeric readings the average lies between the coolest and the hottest |
| Temperature.Monitor.constructor | mtcm/src/Components/Temperature/Temperature.js:203-206 | no data, loading, no error, no update time |
| Temperature.Monitor.View | mtcm/src/Components/Temperature/Temperature.js:238-400 | the loading view while loading, then the error view while an error is held, then the thermometers of the record; with no record the render throws at the unguarded sensor reads, exactly when no error is held and loading is over |
| Temperature.Monitor.FetchData | mtcm/src/Components/Temperature/Temperature.js:208-225 | success replaces the data, stamps the time and clears the error, and the render fails iff that successful reply carried no data; an unsuccessful body or an exception sets its own message; loading ends |
| Temperature.Monitor.RefreshData | mtcm/src/Components/Temperature/Temperature.js:233-236 | the outcome is that of a fetch, including the failed render of a successful reply without data |
| TempGraph.IndexOf | mtcm/src/Components/Temperature/TempGraph.js:94 | the first position holding the key, or the length when no sensor has it |
| TempGraph.Find | mtcm/src/Components/Temperature/TempGraph.js:94 | no sensor iff none has the key; otherwise the first with that key |
| TempGraph.SensorConfig | mtcm/src/Components/Temperature/TempGraph.js:59-101 | "rtd" gives the four RTDs, "tc" the four thermocouples; any other type gives the one selected sensor, if it exists |
| TempGraph.EverySelectableSensorConfigures | mtcm/src/Components/Temperature/TempGraph.js:83-99 | every sensor in the selector yields a configuration of exactly that sensor |
| TempGraph.ConfigSensorsKnown | mtcm/src/Components/Temperature/TempGraph.js:59-101 | every configuration draws its sensors from the eight |
| TempGraph.Pad2 | mtcm/src/Components/Temperature/TempGraph.js:30 | two digits that read back as the hour |
| TempGraph.HourLabel | mtcm/src/Components/Temperature/TempGraph.js:30-32 | the padded hour followed by ":00" |
| TempGraph.HourLabelsDistinct | mtcm/src/Components/Temperature/TempGraph.js:30-32 | distinct hours get distinct labels |
| TempGraph.HourValues | mtcm/src/Components/Temperature/TempGraph.js:33-40 | a value for exactly the eight sensor keys, each within 0.05 of its sample |
| TempGraph.HourValuesInTenths | mtcm/src/Components/Temperature/TempGraph.js:33-40 | every stored value is a whole number of tenths |
| TempGraph.GenerateDay | mtcm/src/Components/Temperature/TempGraph.js:29-43 | 24 points, hour by hour, with label and values of that hour |
| TempGraph.DayLabels | mtcm/src/Components/Temperature/TempGraph.js:29-43 | the day runs from "00:00" to "23:00" with no label twice |
| TempGraph.StatsOf | mtcm/src/Components/Temperature/TempGraph.js:130-142 | min ≤ every value ≤ max, the rounded average within 0.05 of that range, and trend up iff the last value exceeds the first |
| TempGraph.StatsOfIsTheStatistics | mtcm/src/Components/Temperature/TempGraph.js:130-142 | the minimum and the maximum are values of the series, and the average is the series' mean rounded to a whole number of tenths, within 0.05 of it |
| TempGraph.GetStats | mtcm/src/Components/Temperature/TempGraph.js:127-146 | nothing iff there is no graph data, otherwise one entry per configured sensor, in order |
| TempGraph.GeneratedDayCovers | mtcm/src/Components/Temperature/TempGraph.js:29-45 | the generated day has a value for every sensor any configuration selects |
| TempGraph.Chart.constructor | mtcm/src/Components/Temperature/TempGraph.js:6-14 | RTD graph, sensor rtd1, no data, not loading, no error |
| TempGraph.Chart.FetchGraphData | mtcm/src/Components/Temperature/TempGraph.js:16-53 | the error is cleared, the data becomes a freshly generated day of 24 points, loading ends |
| Vibration.ReadVibration | mtcm/src/Components/Vibration/Vibration.js:66-73 | each figure is `parseFloat \|\| 0` of its field, and the RPM is 60 times the frequency |
| Vibration.UnreadableFrequencyStopsShaft | mtcm/src/Components/Vibration/Vibration.js:71-72 | an unparsable frequency reads as 0 Hz and 0 RPM |
| Vibration.FftUrl | mtcm/src/Components/Vibration/Vibration.js:90-95 | the endpoint with `?date=` and the date, or `?realtime=1` for an empty date |
| Vibration.FftUrlInjective | mtcm/src/Components/Vibration/Vibration.js:90-95 | distinct dates, and the live mode, never share a URL |
| Vibration.Trace | mtcm/src/Components/Vibration/Vibration.js:120-122 | each axis is the spectrum's own, or empty when missing |
| Vibration.BarWidth | mtcm/src/Components/Vibration/Vibration.js:230 | a percentage that is 100 iff the magnitude is at least 10, and 10 times the magnitude otherwise |
| Vibration.BarWidthSymmetricMonotone | mtcm/src/Components/Vibration/Vibration.js:230 | opposite values draw the same bar; a larger magnitude never draws a shorter one |
| Vibration.FftError | mtcm/src/Components/Vibration/Vibration.js:107-110 | an exception's message, else the endpoint's error, else the fixed "no FFT data" text |
| Vibration.Screen.constructor | mtcm/src/Components/Vibration/Vibration.js:194-198 | realtime mode with no date, the poll running, zero readings; the initial live fetch settles from the empty state: its spectrum and time with no error on success, otherwise no spectrum and `FftError` |
| Vibration.Screen.FetchVibrationData | mtcm/src/Components/Vibration/Vibration.js:61-84 | a good reply updates the figures, connects and clears the error; anything else disconnects with the fixed message |
| Vibration.Screen.FetchFFTData | mtcm/src/Components/Vibration/Vibration.js:87-114 | requests `FftUrl(date)`; success replaces the spectrum (with none when the reply's data is null), stamps the time and clears the error; failure keeps spectrum and time and shows `FftError`; loading ends |
| Vibration.Screen.HandleDateChange | mtcm/src/Components/Vibration/Vibration.js:159-168 | a date switches to that day and stops the poll; an empty date goes live and refetches unless already live; a request settles as a fetch does (that day's spectrum or its error), and without one the spectrum, error, time and loading flag are unchanged |
| Vibration.Screen.ToggleRealtime | mtcm/src/Components/Vibration/Vibration.js:171-181 | flips the mode; going live clears the date, fetches the live spectrum and restarts the poll, settling as a fetch does; stopping leaves the spectrum, error, time and loading flag unchanged |
| Vibration.Screen.PollTick | mtcm/src/Components/Vibration/Vibration.js:198 | the poll runs only in realtime mode, asks for the live spectrum and settles as a fetch does, refreshing the spectrum and time or showing `FftError` |
| App.DerivedStateFromError | mtcm/src/App.js:202-208 | the page stays up iff the message contains "ResizeObserver"; otherwise the error is recorded |
| App.ErrorBoundary.constructor | mtcm/src/App.js:197-200 | no error held |
| App.ErrorBoundary.Catch | mtcm/src/App.js:202-208 | the fallback shows iff the error is not ResizeObserver noise; such noise keeps the held error |
| App.ErrorBoundary.TryAgain | mtcm/src/App.js:225 | back to the page with no error held |
| App.Debouncer.constructor | mtcm/src/App.js:334-335 | no timer pending and no call made |
| App.Debouncer.Call | mtcm/src/App.js:337-352 | the timer is replaced by one for these arguments; in immediate mode the function runs now iff no timer was pending |
| App.Debouncer.Fire | mtcm/src/App.js:341-344 | the timer is gone, and the function runs with its arguments outside immediate mode |
| App.Debouncer.Cancel | mtcm/src/App.js:354-357 | nothing is pending |
| App.Debouncer.Burst | mtcm/src/App.js:334-360 | a burst then the wait runs the function exactly once with the last arguments; in immediate mode, once with the first, unless a timer was already pending |
| App.IsActive | mtcm/src/App.js:517 | a link is active only when the current path is one of the listed paths |
| App.OneActiveLink | mtcm/src/App.js:321-331 | at most one navigation link is active, and one is iff the path is listed |
| App.Sidebar.constructor | mtcm/src/App.js:318 | mobile iff the width is below 1024, closed |
| App.Sidebar.Resize | mtcm/src/App.js:362-369 | the layout follows the width, and a desktop width closes the sidebar |
| App.Sidebar.ClickOutside | mtcm/src/App.js:380-383 | a click closes the sidebar only on mobile, outside both the sidebar and the menu button |
| App.Sidebar.ToggleMenu | mtcm/src/App.js:421-423 | the menu button flips the sidebar |
| App.Sidebar.OverlayClick | mtcm/src/App.js:459 | a click on the backdrop closes the sidebar |
| App.Sidebar.NavClick | mtcm/src/App.js:532 | following a link leaves the sidebar closed |
| App.OverlayOnlyOverSidebar | mtcm/src/App.js:451-466 | the backdrop shows only with the sidebar, and the desktop layout always shows the sidebar without a backdrop |
| App.NextIndex | mtcm/src/App.js:610-612 | the next slide wraps from the last to the first |
| App.PrevIndex | mtcm/src/App.js:614-616 | the previous slide wraps from the first to the last |
| App.NextPrevInverse | mtcm/src/App.js:610-616 | the two arrows undo each other |
| App.AdvanceIsModular | mtcm/src/App.js:603-605 | k ticks of the timer from slide i land on slide (i + k) mod n |
| App.Carousel.constructor | mtcm/src/App.js:596 | the first slide |
| App.Carousel.NextSlide | mtcm/src/App.js:610-612 | moves to `NextIndex` over the six images |
| App.Carousel.PrevSlide | mtcm/src/App.js:614-616 | moves to `PrevIndex` over the six images |
| App.Carousel.SelectDot | mtcm/src/App.js:657-660 | moves to the chosen dot's slide |
| MachineStatus.GetValue | mtcm/src/Components/MachineStatus/MachineStatus.js:42-45 | always the field's `parseFloat \|\| 0`: 0 with no data, otherwise the parsed number |
| MachineStatus.Quarters | mtcm/src/Components/MachineStatus/MachineStatus.js:111-116 | four ticks at quarters of the scale, the last at its top |
| MachineStatus.Bands | mtcm/src/Components/MachineStatus/MachineStatus.js:125-129 | band limits at 40 and 80 percent of the scale |
| MachineStatus.ScaleOrdered | mtcm/src/Components/MachineStatus/MachineStatus.js:111-129 | on a positive scale the ticks rise to the top and the limits fall strictly inside it |
| MachineStatus.ThousandsGauge | mtcm/src/Components/MachineStatus/MachineStatus.js:103-129 | the needle is the reading in thousands, the top 1000 above it, with quarter ticks and 40/80 percent bands |
| MachineStatus.ThousandsGaugeBands | mtcm/src/Components/MachineStatus/MachineStatus.js:125-129 | the needle is green iff the raw reading is below 2000000/3, and red iff it is at least 4000000 |
| MachineStatus.VoltageGauge | mtcm/src/Components/MachineStatus/MachineStatus.js:193-216 | a 0–470 V scale whose literal ticks and limits are the quarters and the 40/80 percent bands |
| MachineStatus.CurrentGauge | mtcm/src/Components/MachineStatus/MachineStatus.js:234-257 | a 0–10 A scale whose literal ticks and limits are the quarters and the 40/80 percent bands |
| MachineStatus.PowerFactorGauge | mtcm/src/Components/MachineStatus/MachineStatus.js:275-298 | a 0–1 scale whose literal ticks and limits are the quarters and the 40/80 percent bands |
| MachineStatus.Gauges | mtcm/src/Components/MachineStatus/MachineStatus.js:100-298 | five gauges, each fed by its machine-meter field, all ticked and banded consistently |
| MachineStatus.NoDataGaugesAtZero | mtcm/src/Components/MachineStatus/MachineStatus.js:43 | with no data every needle rests at 0 |
| MachineStatus.Panel.constructor | mtcm/src/Components/MachineStatus/MachineStatus.js:6-10 | no data, loading, no error, connected |
| MachineStatus.Panel.ShowsSplash | mtcm/src/Components/MachineStatus/MachineStatus.js:54 | the start-up screen shows only while loading with no data yet |
| MachineStatus.Panel.FetchData | mtcm/src/Components/MachineStatus/MachineStatus.js:14-34 | success replaces the data, stamps the time and connects; a failure keeps the data, records its message and disconnects; the splash is gone |
| Sensors.Voltages | mtcm/src/Components/Sensors/Sensors.js:33-40 | no cards without data, else the four voltage inputs in order |
| Sensors.Currents | mtcm/src/Components/Sensors/Sensors.js:42-49 | no cards without data, else the four current inputs in order |
| Sensors.Display | mtcm/src/Components/Sensors/Sensors.js:69 | dashes iff the value does not parse, otherwise the parsed number |
| Sensors.IsActive | mtcm/src/Components/Sensors/Sensors.js:52-53 | `parseFloat(value) !== 0`: an unparsable value counts as active |
| Sensors.DashesAreActive | mtcm/src/Components/Sensors/Sensors.js:52-53 | a card that prints dashes still counts as active |
| Sensors.ActiveCount | mtcm/src/Components/Sensors/Sensors.js:173 | at most the number of cards; all of them iff every card is active, none iff none is |
| Sensors.ActiveCurrentsBounded | mtcm/src/Components/Sensors/Sensors.js:173 | the footer shows at most 4 active currents, and 0 without data |
| Sensors.Monitor.constructor | mtcm/src/Components/Sensors/Sensors.js:9-10 | no data, no error |
| Sensors.Monitor.View | mtcm/src/Components/Sensors/Sensors.js:84-108 | loading iff no data and no error, the error view iff an error is held, else four voltage and four current cards |
| Sensors.Monitor.FetchSensors | mtcm/src/Components/Sensors/Sensors.js:13-24 | an HTTP failure or `success: false` keeps the data and shows its message; a good body replaces the data and clears the error |
| DigitalIO.Caption | mtcm/src/Components/Digital/DIO.js:110-128 | the prefix, a space and the row's digit |
| DigitalIO.StatusOf | mtcm/src/Components/Digital/DIO.js:111 | the row shows ON iff the field is the string "1"; a falsy field reads as "0" |
| DigitalIO.DigitalInputs | mtcm/src/Components/Digital/DIO.js:110-118 | seven rows "Input k", each with the status of Din k |
| DigitalIO.DigitalOutputs | mtcm/src/Components/Digital/DIO.js:120-128 | seven rows "Output k", each with the status of Do k |
| DigitalIO.CaptionsDistinct | mtcm/src/Components/Digital/DIO.js:110-128 | no two rows of a table share a caption |
| DigitalIO.NoDataAllOff | mtcm/src/Components/Digital/DIO.js:110-128 | without data every row reads "0" |
| DigitalIO.Dashboard.constructor | mtcm/src/Components/Digital/DIO.js:4-7 | no data, loading, no error |
| DigitalIO.Dashboard.View | mtcm/src/Components/Digital/DIO.js:78-108 | the spinner while loading, then the error panel, then the two tables |
| DigitalIO.Dashboard.FetchData | mtcm/src/Components/Digital/DIO.js:9-28 | each failure keeps the data and sets its message; a good body replaces the data, stamps the time and clears the error; after a response the error panel shows iff it was not a success |
| ETop.NullishStatus | mtcm/src/Components/E-TOP/ETOP.js:125 | the row shows ON iff the field is "1"; only a missing or null field reads as "0" |
| ETop.EInputs | mtcm/src/Components/E-TOP/ETOP.js:123-134 | seven rows "Input k", each with the status of e_din k |
| ETop.EOutputs | mtcm/src/Components/E-TOP/ETOP.js:136-147 | seven rows "Output k", each with the status of e_do k |
| ETop.DefaultingRulesAgreeOnDisplay | mtcm/src/Components/E-TOP/ETOP.js:21-32 | the E-TOP and DIO defaulting rules never disagree on ON/OFF, though they differ on an empty string |
| ETop.FailureError | mtcm/src/Components/E-TOP/ETOP.js:92-107 | no message iff the request was aborted; otherwise the status text, the unsuccessful-body text, or the exception's message (or "Unknown error") |
| ETop.Panel.constructor | mtcm/src/Components/E-TOP/ETOP.js:71-77 | no data, loading, no error, no controller |
| ETop.Panel.View | mtcm/src/Components/E-TOP/ETOP.js:153-190 | the spinner while loading, then the error panel, then the two tables |
| ETop.Panel.BeginRequest | mtcm/src/Components/E-TOP/ETOP.js:83-85 | the held controller is aborted and a fresh one becomes the only live request |
| ETop.Panel.SettleRequest | mtcm/src/Components/E-TOP/ETOP.js:92-109 | success replaces the data and clears the error; an abort keeps the old error; other failures set `FailureError`; loading ends |
| ETop.Panel.FetchData | mtcm/src/Components/E-TOP/ETOP.js:80-110 | one new controller, the only live one, and the outcome of `SettleRequest` |
| ETop.Panel.Retry | mtcm/src/Components/E-TOP/ETOP.js:178-181 | a success shows the tables; an aborted retry keeps the old error on screen |
| ETop.Panel.Unmount | mtcm/src/Components/E-TOP/ETOP.js:116-119 | no request is left live |
| ETop.AtMostOneLive | mtcm/src/Components/E-TOP/ETOP.js:83-85 | in a valid state at most one request is in flight |

## Left out

- Network, timers and rendering are not modelled. Each request's outcome is a parameter of the handler that receives it. Intervals become methods the caller invokes per tick: `Vibration.Screen.PollTick`, and the debouncer's `Fire`. The rendered JSX, Plotly, the gauge and chart components and the animations are not modelled.
- Asynchronous interleaving is not modelled: each handler runs to completion in call order. Where one handler awaits two requests (Report), both outcomes are parameters.
- IEEE arithmetic is not modelled. Numbers are exact reals, and NaN is `None` only where a source path can produce it (`parseFloat`, `avgTemp`, temperature bands). Infinity, exponents in `parseFloat` text, `toFixed` and `toLocaleString` formatting are left out.
- Clocks are not modelled: `new Date()` and `toLocaleTimeString()` become a `now` parameter. In MSGraph, the clock and timestamp of `created_at` are given with each raw item instead of being computed from it.
- JsValues.ParseFloat: text is parsed as leading white space (the tab, vertical tab, form feed, space, no-break space, byte order mark, other space separators and line terminators that JavaScript skips), an optional sign, digits and an optional fraction. An exponent is ignored, and "Infinity" reads as NaN.
- OEE: the utilization rate (OEE.js:554) is not modelled. It divides by a theoretical count that may be 0.
- OEE.InputValue: an input that reads as NaN is not carried into `CalculateOEE`, whose inputs are numbers. In the source, NaN would spread through every result.
- OEE: the history chart's drawing, the trend arrow and the efficiency-loss card are not modelled beyond `AvgOEE` and `ProductionLossVsPerformance`. `TrendUp` and `EfficiencyLoss` are plain definitions with no contract.
- Report.Generator.GeneratePDF: the logo conversion, the HTML template's static text, `window.open` and printing are not modelled.
- Report.Generator.HandleInputChange: only the four form names are modelled. An input with any other `name` would add a key, and that case is not modelled.
- MSGraph.Chart.FetchData: the `...item` spread that lets a raw field named `time`, `timestamp`, `spindle` or `machine` override the computed one is not modelled. The point keeps the raw item separately.
- MSGraph.SortByTimestamp: the model proves the points are sorted and a permutation, but not that the sort is stable.
- TempGraph.GetStats: requires non-empty graph data that covers the configured sensors. The source would show NaN and infinite statistics for an empty day, which it never generates.
- TempGraph.SensorConfig: an unknown selected sensor yields `None`. The source throws a TypeError when it reads the label of `undefined`.
- TempGraph: the mock figures from `Math.random`, `sin` and `cos` are the `sample` parameter. The `date`, `startTime` and `endTime` filters do not affect the generated data.
- Temperature.AvgTemp: returns the exact mean. The `toFixed(1)` text is not modelled.
- Temperature.Percentage: a NaN reading's percentage is not modelled; the fill functions take a number.
- MachineStatus.Panel.FetchData: as written, a success does not clear an earlier error, and the panel never renders the error. The response's HTTP status is not checked. The expanded-card and phase-current toggles are not modelled.
- Sensors.Monitor.FetchSensors: the body of a response that is not ok is ignored, as in the source.
- DigitalIO and ETop: a numeric status 1 shows OFF, because the comparison is strict equality with the string "1".
- App.Sidebar.ToggleMenu: requires the mobile layout, because the stylesheet hides the menu button from 1024 px up. A click on the hidden button is not modelled, and neither is a click in the 100 ms debounce lag after the window shrinks below 1024 px, while the button is already visible but `isMobile` is still false.
- App.Debouncer: the wait time and the timer identity are abstracted into the `pending` flag. `func`'s `this` binding is not modelled.
- App.ErrorBoundary: `componentDidCatch` only logs, and the logging is not modelled.
- App: the landing page's static content, the routes' component mapping, and the `activeSection` state, which nothing updates, are not modelled.
- The tab containers (MSTabs.js, Tabs.js) and tailwind.config.js hold only layout and theme; they are not part of this model.
