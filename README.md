# Breath monitor core in Dafny

A model of the breath monitor: a Raspberry Pi sensor, a backend that turns the readings into
breathing metrics, and an iOS app that shows them. Each source file of the core is one Dafny
module.

* **Device (C++).**
  * `Adc` models the MCP3008 driver: its SPI frames, its decoding and its file-descriptor life
    cycle, with the calls made to the operating system recorded.
  * `SensorMain` models `main`: configuration, the payload, and the sampling loop with its
    counters, back-off and sleeps.
  * `Rest` models the libcurl client: the base URL, the write callback, and its post and life
    cycle, with the calls made to libcurl recorded.
* **Backend (TypeScript).**
  * `PeakDetection`: the detector (sort, moving-average smoothing, strict local extrema,
    prominence and distance filters).
  * `Metrics`: rate, breath length, variability and depth.
  * `Pipeline`: the per-device buffer and the apnea risk.
  * `Alerts`: the alert rules with their 30-second cooldown.
  * `ProcessedSamplesRepo`: the SQL that the samples repository builds, and how it maps rows.
  * `ApiTypes`: the request schemas, as parsers.
  * `Errors`: the error classes.
  * `ErrorMiddleware` and `AuthMiddleware`: the error and authentication middleware.
  * `BackendConfig` holds the configuration defaults these modules use.
* **App (Swift).**
  * `BreathingModel`: the tolerant JSON decoder of `BreathingData` and its depth categories.
  * `LiveBreathing`: the alarm state machine of the live view model.
  * `History`: the history view model and its row labels.
  * `DataService`: the connection state and error descriptions of the data service.
* **Shared modules.**
  * `Text`: decimal rendering and C's `atoi`.
  * `Ordering`: the stable insertion sort by timestamp.
  * `Json`: a JSON value.
  * `Wrappers`: `Option` and `Result`.

Anything the code gets from outside is a parameter or a recorded call:

* the clock (`Date.now()`, `Date()`);
* the file system and SPI bus;
* the network;
* the device's environment variables (`RAILWAY_API_URL`, `SPI_DEVICE`, `POLL_INTERVAL_MS`); the
  backend's configuration is fixed at its defaults instead (see "Left out");
* the database's answers;
* UUIDs;
* `Math.sqrt`;
* the text `std::ostream` makes of a double.

Where the documented design and the code differ, the model follows the code.

* **The device loop.** `sampleCount` counts every iteration whose read and post both returned,
  whatever the HTTP status (Hardware/src/main.cpp:229). No status from the server resets
  `errorCount`, and only a failed post can trigger the 5-second back-off; a read exception
  cannot (main.cpp:244-260).
  * So the statuses 200, 200, 404 leave `sampleCount` at 3.
  * Eleven read exceptions in a row never back off.
* **The pipeline's risk.** `process` passes metrics without a signal quality to
  `evaluateApneaRisk` (apps/backend/src/processing/pipeline.ts:66). In JavaScript
  `undefined < 0.3` is false, so the poor-signal rung never fires from `process`.
* **Clearing a cooldown.** `clearCooldown` deletes every key that starts with the device id, so
  clearing "dev-1" also clears the cooldowns of "dev-10"
  (apps/backend/src/services/alert.service.ts:125).
* **Dismissing the alarm.** The comment on `dismissAlarm`
  (apps/ios/BreathTracker/BreathTracker/ViewModels/LiveBreathingViewModel.swift:94) says the
  alarm re-triggers if the apnea persists on the next update. The code does not: while
  `alarmDismissed` is set, stopped data keeps the alert but never plays the alarm again, and only
  an update after breathing resumes clears the flag (`LiveBreathing.DismissHoldsUntilRecovery`).
* **Signal quality in the live view.** The live view model reads `data.signalQuality`, which
  `BreathingData` does not declare; the model takes the signal quality as an input.

## Model

| member | source | states |
|---|---|---|
| Adc.RequestFrame | Hardware/src/Mcp3008.cpp:130-138 | the single-ended request for channel c is three bytes: 0x01, 0x80 + 16·c, 0x00 |
| Adc.RequestSelectsChannel | Hardware/src/Mcp3008.cpp:132-136 | the request's second byte carries the single-ended flag and selects exactly the requested channel |
| Adc.DecodeResponse | Hardware/src/Mcp3008.cpp:144-150 | the sample is (rx[1] mod 4)·256 + rx[2] and always lies in 0..1023 (Hardware/src/Mcp3008.hpp:35) |
| Adc.DecodeBytes | Hardware/src/Mcp3008.cpp:146-150 | the 16-bit shift, or and 0x03FF mask compute exactly (b1 mod 4)·256 + b2 |
| Adc.DecodeRecoversSample | Hardware/src/Mcp3008.cpp:144-150 | whatever the converter puts in the leading byte and above bit 1 of byte 1, the 10 sample bits are read back unchanged |
| Adc.DecodeIgnoresUnusedBits | Hardware/src/Mcp3008.cpp:146-147 | two responses that agree on the low two bits of byte 1 and on byte 2 decode to the same value; byte 0 is ignored |
| Adc.Mcp3008.Open | Hardware/src/Mcp3008.cpp:34-50 | the constructor issues one open of the device path; a negative descriptor is an OpenFailed error, otherwise the new driver holds that descriptor and path |
| Adc.Mcp3008.Destroy | Hardware/src/Mcp3008.cpp:52-57 | the destructor closes the descriptor exactly when it is ≥ 0 and leaves the driver not open |
| Adc.Mcp3008.IsOpen | Hardware/src/Mcp3008.cpp:153-155 | the driver is open exactly when its descriptor is ≥ 0, so the moved-from and closed value -1 is never open |
| Adc.Mcp3008.MoveFrom | Hardware/src/Mcp3008.cpp:59-64 | the move constructor takes over descriptor and path and leaves the source with descriptor -1, not open; the source's path string is left unspecified |
| Adc.Mcp3008.MoveAssign | Hardware/src/Mcp3008.cpp:66-76 | move assignment closes its own open descriptor first, takes the source's descriptor and path, leaves the source at -1 (its path string unspecified); self-assignment changes nothing and closes nothing |
| Adc.Mcp3008.SpiTransfer | Hardware/src/Mcp3008.cpp:85-116 | one write of the request; a failed or short write raises its error before any read; a read follows only a full write; success exactly when both calls moved `length` bytes, and then the receive buffer holds the bytes read |
| Adc.Mcp3008.ReadChannel | Hardware/src/Mcp3008.cpp:118-151 | a channel above 7 (Hardware/src/Mcp3008.hpp:32) is InvalidChannel and a closed device is NotOpen, both with no bus call; otherwise the request frame is written, and the result is the transfer's error or the decoded 10-bit sample |
| SensorMain.RawToVoltageEnds | Hardware/src/main.cpp:68-70 | rawToVoltage maps 0 to 0 V, 1023 to VREF = 3.3 V and mid-scale to about VREF/2 |
| SensorMain.RawToVoltageMonotone | Hardware/src/main.cpp:68-70 | rawToVoltage is strictly increasing |
| SensorMain.RawToVoltage | Hardware/src/main.cpp:68-70 | every 10-bit reading 0..1023 converts to a voltage in 0..3.3 V |
| SensorMain.BuildJsonPayload | Hardware/src/main.cpp:78-83 | the payload starts with {"raw": and the decimal reading followed by ,"voltage":, ends with }, and its length is theirs plus the formatted voltage's and the brace's |
| SensorMain.PayloadRoundTrip | Hardware/src/main.cpp:78-83 | the payload is `{"raw":` digits `,"voltage":` text `}`, and reading it back gives the raw value and the voltage text unchanged, `raw` first |
| SensorMain.ParseBuilt | Hardware/src/main.cpp:81 | a payload laid out field by field as buildJsonPayload writes it parses back to the digits' value and the voltage text |
| SensorMain.DigitPrefixStopsAt | Hardware/src/main.cpp:81 | the `raw` digits end at the comma that opens the `voltage` field |
| SensorMain.SleepMs | Hardware/src/main.cpp:125-130 | tv_sec·1000 + tv_nsec/10^6 equals the milliseconds, tv_nsec is a whole number of milliseconds, and 0 ≤ tv_nsec < 10^9 for a non-negative argument (C's truncating `/` and `%`) |
| SensorMain.GetEnvOrDefault | Hardware/src/main.cpp:99-105 | the variable's value exactly when it is set and non-empty, otherwise the default |
| SensorMain.PollInterval | Hardware/src/main.cpp:178-186 | the poll interval is always in 1..2147483647; it is 250 (Hardware/src/main.cpp:54) when POLL_INTERVAL_MS is unset or empty, is the 32-bit atoi reading when that is positive, and 250 otherwise |
| SensorMain.PollIntervalOfNumber | Hardware/src/main.cpp:180-185 | POLL_INTERVAL_MS set to the decimal text of n gives n for 1 ≤ n ≤ 2147483647 and 250 for "0"; above the int range the value is first saturated to 64 bits and wrapped to 32, and used only when the result is positive |
| SensorMain.PollIntervalWrapsNegative | Hardware/src/main.cpp:181-185 | POLL_INTERVAL_MS set to a number in 2147483648..4294967295 wraps to a negative int, so the default 250 is used |
| SensorMain.Step | Hardware/src/main.cpp:219-260 | the counters stay within uint32_t after every iteration |
| SensorMain.StepSampleCount | Hardware/src/main.cpp:222-229 | sampleCount rises by one in every iteration whose read and post both returned, whatever the status or transport result, and is unchanged after a read exception |
| SensorMain.StepErrorCount | Hardware/src/main.cpp:231-258 | errorCount is unchanged by a completed exchange (no reset on 2xx), rises by one on a read exception, and on a failed post rises by one or is reset to 0 by the back-off, so it is ≤ 10 after a failed post |
| SensorMain.StepSleepsShape | Hardware/src/main.cpp:250-263 | every iteration ends with exactly one poll-interval sleep; a 5000 ms pause precedes it exactly when a failed post pushed errorCount above 10 |
| SensorMain.RunSleepsCount | Hardware/src/main.cpp:219-264 | the loop sleeps once per iteration plus once per back-off |
| SensorMain.NoReadExceptionsBoundErrors | Hardware/src/main.cpp:244-254 | from errorCount ≤ 10, iterations without read exceptions never leave errorCount above 10 |
| SensorMain.RepeatedFailures | Hardware/src/main.cpp:244-260 | n failures in a row below the threshold add n to errorCount, add n to sampleCount only for failed posts, and take no back-off |
| SensorMain.ElevenPostFailuresBackOffOnce | Hardware/src/main.cpp:246-254 | example: eleven failed posts from a clean start count eleven samples, back off once and leave errorCount at 0 |
| SensorMain.ElevenReadExceptionsNoBackoff | Hardware/src/main.cpp:257-260 | example: eleven read exceptions take no back-off and leave errorCount at 11 |
| SensorMain.RunSplit | Hardware/src/main.cpp:219-264 | running the loop over a + b is running it over a, then over b, and the back-offs add up |
| SensorMain.RunSnoc | Hardware/src/main.cpp:219-264 | one more iteration steps the counters once more and appends that iteration's sleeps |
| SensorMain.ThreeExchangesScenario | Hardware/src/main.cpp:229-243 | example: statuses 200, 200, 404 give sampleCount 3 and errorCount 0 |
| SensorMain.Outcomes | Hardware/src/main.cpp:219-260 | one outcome per iteration, each the classification of that iteration's read and post |
| SensorMain.TickOsCalls | Hardware/src/main.cpp:222 | one iteration writes the channel-0 request frame when the ADC is open and reads the response only after the whole frame was written; nothing when the ADC is closed |
| SensorMain.TickReading | Hardware/src/main.cpp:222 | an iteration has a reading exactly when the ADC is open and the exchange moved all three bytes, and the reading is in 0..1023 |
| SensorMain.TickRequests | Hardware/src/main.cpp:220-229 | an iteration performs at most one request, and one exactly when the read succeeded and the client has a handle |
| SensorMain.TickRequestCarriesReading | Hardware/src/main.cpp:222-227 | the request goes to the base URL joined with /api/v1/breathing/raw with the client's timeouts, and its body reads back as the reading and its formatted voltage |
| SensorMain.RunOsCalls | Hardware/src/main.cpp:219-264 | the POSIX calls of n iterations are at most two per iteration, and none while the ADC is closed |
| SensorMain.RunRequests | Hardware/src/main.cpp:219-264 | the requests of n iterations are at most one per iteration, and none while the ADC is closed or the client has no handle |
| SensorMain.PollIteration | Hardware/src/main.cpp:219-264 | one more iteration extends the counters, sleeps, POSIX calls and requests of the first i iterations to those of the first i + 1 |
| SensorMain.PollOnce | Hardware/src/main.cpp:220-263 | one pass of the loop body updates the counters and sleeps as the iteration's outcome prescribes, logs the write of the channel-0 frame and the read that follows only a complete write, and has libcurl perform exactly one request (to the base URL joined with the raw-sample endpoint, carrying the payload of the reading and its voltage and the client's timeouts) when the reading succeeded and the client has a handle, and none after a read exception |
| SensorMain.PollingLoop | Hardware/src/main.cpp:216-264 | the loop's final counters and its sleeps are those of the iterations' outcomes, in order, from (0, 0); the POSIX calls logged and the requests performed are the per-iteration ones, in order; cleanup and global initialisation are not touched |
| SensorMain.LoopThenShutDown | Hardware/src/main.cpp:219-269 | the loop's counters, sleeps, calls and requests followed by the shutdown: the REST client loses its handle and the ADC's descriptor, if open, is closed as the last POSIX call |
| SensorMain.RunProgram | Hardware/src/main.cpp:162-269 | exit 1 without an API URL and nothing opened; exit 2 when the ADC does not open; exit 3 when the REST client cannot be created, with the ADC closed; otherwise exit 0 with the loop's counters, the loop sleeping PollInterval(env) per iteration and posting each reading to the stripped RAILWAY_API_URL joined with /api/v1/breathing/raw with the 5 s and 3 s timeouts, and the ADC is the last thing closed; a non-zero exit sleeps and posts nothing |
| Rest.StripRemovesAtMostOneSlash | Hardware/src/RestClient.cpp:35-38 | the stored base URL is the given one, or the given one minus a single trailing '/'; "a//" becomes "a/" |
| Rest.StripTrailingSlash | Hardware/src/RestClient.cpp:35-38 | the base URL kept is a prefix of the given one at most one character shorter, and differs from it exactly when that ends in '/' |
| Rest.JoinUrlShape | Hardware/src/RestClient.cpp:86-93 | the request URL extends the base; an empty endpoint gives the base; a '/' is inserted exactly when the endpoint is non-empty and does not start with '/' |
| Rest.JoinUrl | Hardware/src/RestClient.cpp:86-93 | the full URL starts with the base URL and ends with the endpoint, equals the base for an empty endpoint, and has one '/' between them exactly when the endpoint does not start with one |
| Rest.RestClient.GetBaseUrl | Hardware/src/RestClient.cpp:161-163 | the accessor returns the stored base URL |
| Rest.WriteCallback | Hardware/src/RestClient.cpp:71-76 | the callback appends exactly size·nmemb bytes of the data to the body and returns that count |
| Rest.ChunksBodyLength | Hardware/src/RestClient.cpp:71-76 | the body collected over a transfer is as long as the byte counts of its chunks add up to |
| Rest.PostResponse | Hardware/src/RestClient.cpp:134-150 | success exactly when the exchange completed; then the server's status is reported, even for non-2xx; a transport failure gives status 0 and "HTTP request failed: " followed by curl's reason (Hardware/src/RestClient.hpp:43-48) |
| Rest.RestClient.Create | Hardware/src/RestClient.cpp:11-39 | the global init runs once per process and its failure is an error; a missing easy handle is an error; otherwise timeouts start at 5 s and 3 s and the base URL is stored without one trailing '/' |
| Rest.RestClient.Destroy | Hardware/src/RestClient.cpp:41-46 | the destructor cleans up the handle exactly when one is held and then holds none |
| Rest.RestClient.MoveFrom | Hardware/src/RestClient.cpp:48-55 | the move constructor takes over handle, base URL and both timeouts and nulls the source's handle; the source keeps its timeouts and its base-URL string is left unspecified |
| Rest.RestClient.MoveAssign | Hardware/src/RestClient.cpp:57-69 | move assignment cleans up its own handle first, takes the source's fields and nulls the source's handle, leaving the source's timeouts as they were; self-assignment changes nothing |
| Rest.RestClient.SetTimeout | Hardware/src/RestClient.cpp:153-155 | only the request timeout changes |
| Rest.RestClient.SetConnectTimeout | Hardware/src/RestClient.cpp:157-159 | only the connect timeout changes |
| Rest.RestClient.Post | Hardware/src/RestClient.cpp:78-151 | on a null handle the answer is "RestClient not initialized" with status 0 and nothing is sent; otherwise exactly one request goes to JoinUrl(base, endpoint) with the payload and the client's timeouts, and the answer is PostResponse of the transfer |
| Ordering.SortBy | apps/backend/src/processing/peak-detector.ts:36 | the copy the detector sorts is in timestamp order and holds exactly the input's elements (a permutation), so the caller's array is not reordered |
| Ordering.InsertSorted | apps/backend/src/processing/peak-detector.ts:162 | inserting one element into a time-ordered sequence keeps it time-ordered |
| Ordering.InsertMultiset | apps/backend/src/processing/peak-detector.ts:162 | inserting adds exactly that element to the sequence's elements |
| Ordering.SortByOfSorted | apps/backend/src/processing/peak-detector.ts:162 | sorting an already time-ordered sequence returns it unchanged |
| Ordering.SortedSameKeys | apps/backend/src/processing/metrics-calculator.ts:39 | two time-ordered arrangements of the same elements have the same sequence of timestamps |
| Ordering.SortByKeysPermutationInvariant | apps/backend/src/processing/metrics-calculator.ts:39 | sorting any two permutations of the same peaks yields the same sequence of timestamps |
| Ordering.SortedEnds | apps/backend/src/processing/metrics-calculator.ts:39-53 | the first and last elements of the sorted copy carry the least and the greatest timestamp of the input, each attained by an input element |
| PeakDetection.SeqMinAttained | apps/backend/src/processing/peak-detector.ts:137-154 | the minimum of a window is one of its values |
| PeakDetection.SeqMaxAttained | apps/backend/src/processing/peak-detector.ts:66-71 | the maximum of a window is one of its values |
| PeakDetection.Smoothed | apps/backend/src/processing/peak-detector.ts:58-75 | smoothing preserves the signal's length |
| PeakDetection.SmoothedWithinWindow | apps/backend/src/processing/peak-detector.ts:62-71 | each smoothed value lies between the least and the greatest value of its edge-clipped window |
| PeakDetection.MeanWithin | apps/backend/src/processing/peak-detector.ts:71 | the mean of a non-empty window lies between its minimum and its maximum |
| PeakDetection.MeanOfBounded | apps/backend/src/processing/peak-detector.ts:71 | the mean of values between two bounds lies between those bounds |
| PeakDetection.SumBounds | apps/backend/src/processing/peak-detector.ts:66-69 | a sum of n values between lo and hi lies between n·lo and n·hi |
| PeakDetection.Smooth | apps/backend/src/processing/peak-detector.ts:58-75 | the loop produces, for every position, the mean of the window [max(0, i − ⌊w/2⌋), min(n−1, i + ⌊w/2⌋)] |
| PeakDetection.WindowSum | apps/backend/src/processing/peak-detector.ts:63-69 | the inner loop's sum and count are the window's sum and its number of positions |
| PeakDetection.CandidatesSound | apps/backend/src/processing/peak-detector.ts:80-115 | every reported extremum sits at a position 1 ≤ i ≤ n−2, is strictly above (below) both neighbours, and carries that position's time and smoothed value with prominence 0 |
| PeakDetection.CandidatesIncreasing | apps/backend/src/processing/peak-detector.ts:83-92 | extrema come out in strictly increasing position order |
| PeakDetection.CandidatesComplete | apps/backend/src/processing/peak-detector.ts:83-92 | every strict extremum at a position 1..n−2 is reported |
| PeakDetection.Candidates | apps/backend/src/processing/peak-detector.ts:80-115 | the scan from a position yields at most one candidate per interior position left to scan |
| PeakDetection.FindLocalExtrema | apps/backend/src/processing/peak-detector.ts:80-115 | findLocalMaxima / findLocalMinima push exactly the strict extrema, in position order |
| PeakDetection.MinBefore | apps/backend/src/processing/peak-detector.ts:137-143 | the left minimum is at most values[index] and at most every value from index − 10 (clipped at 0) to index |
| PeakDetection.MinAfter | apps/backend/src/processing/peak-detector.ts:148-154 | the right minimum is at most values[index] and at most every value from index to index + 10 (clipped at n − 1) |
| PeakDetection.SideMinimaAttained | apps/backend/src/processing/peak-detector.ts:137-154 | each side minimum is the value at some position inside its window |
| PeakDetection.FindMinBefore | apps/backend/src/processing/peak-detector.ts:137-143 | the leftward running-minimum loop computes the left minimum |
| PeakDetection.FindMinAfter | apps/backend/src/processing/peak-detector.ts:148-154 | the rightward running-minimum loop computes the right minimum |
| PeakDetection.Score | apps/backend/src/processing/peak-detector.ts:122-129 | scoring changes only the prominence, and the prominence of a peak at its own smoothed value is ≥ 0 |
| PeakDetection.FilterByProminence | apps/backend/src/processing/peak-detector.ts:120-132 | never more peaks than given, and every kept peak's prominence reaches the minimum |
| PeakDetection.FilterByProminenceSound | apps/backend/src/processing/peak-detector.ts:121-131 | every kept peak is the scored form of one of the candidates (index, time and value unchanged) |
| PeakDetection.FilterByProminenceComplete | apps/backend/src/processing/peak-detector.ts:131 | every candidate whose prominence reaches the minimum is kept |
| PeakDetection.FilterByProminenceOrdered | apps/backend/src/processing/peak-detector.ts:121-131 | filtering keeps the candidates in their order |
| PeakDetection.FilterByProminenceIndicesAbove | apps/backend/src/processing/peak-detector.ts:121-131 | a lower bound shared by all candidates' positions holds for the kept ones |
| PeakDetection.ThinStep | apps/backend/src/processing/peak-detector.ts:165-175 | one step appends, replaces the last kept peak, or skips, so the kept list never empties and grows by at most one |
| PeakDetection.ThinFrom | apps/backend/src/processing/peak-detector.ts:165-175 | thinning never yields more peaks than it starts from plus those it still has to see |
| PeakDetection.ThinStepKeepsShape | apps/backend/src/processing/peak-detector.ts:166-174 | a step keeps the kept peaks a subsequence of the time-sorted input and keeps consecutive kept peaks at least minDistanceMs apart, also when a stronger close peak replaces the last one |
| PeakDetection.FilterByDistance | apps/backend/src/processing/peak-detector.ts:159-178 | the loop over the time-sorted copy, with its in-place replacement, computes the distance filter |
| PeakDetection.DistanceFilterProperties | apps/backend/src/processing/peak-detector.ts:159-178 | the output is empty iff the input is, is no longer than the input, is a subsequence of the time-sorted input drawn from the input, is in time order, and consecutive kept peaks are at least minDistanceMs apart |
| PeakDetection.RawValues | apps/backend/src/processing/peak-detector.ts:39 | one signal value per sample |
| PeakDetection.Detect | apps/backend/src/processing/peak-detector.ts:30-53 | fewer than 3 samples give no peaks and no valleys; otherwise sort, smooth, find extrema, score and filter both, and thin only the peaks |
| PeakDetection.DetectionOf | apps/backend/src/processing/peak-detector.ts:30-53 | fewer than 3 samples give no peaks and no valleys; otherwise there are at most as many peaks and valleys as samples |
| PeakDetection.ScoredCandidates | apps/backend/src/processing/peak-detector.ts:42-47 | after prominence filtering every reported extremum is a strict extremum of the smoothed signal with its smoothed value and a prominence ≥ max(0, minimum) |
| PeakDetection.SmoothedSignal | apps/backend/src/processing/peak-detector.ts:36-39 | the smoothed signal has one value per sample |
| PeakDetection.DetectedPeaks | apps/backend/src/processing/peak-detector.ts:42-52 | detected peaks are strict maxima of the smoothed signal with enough non-negative prominence, in time order, spaced by minDistanceMs, and no more numerous than the maxima |
| PeakDetection.DetectedValleys | apps/backend/src/processing/peak-detector.ts:43-52 | detected valleys are strict minima with enough prominence, in position order, and are exactly the prominence-filtered minima, with no distance filtering |
| Metrics.RoundMonotone | apps/backend/src/processing/metrics-calculator.ts:134 | Math.round is monotone |
| Metrics.RoundOfInt | apps/backend/src/processing/metrics-calculator.ts:137 | Math.round leaves an integer unchanged |
| Metrics.Round | apps/backend/src/processing/metrics-calculator.ts:78 | Math.round gives the integer within half of its argument, halves rounding up |
| Metrics.PeakTimes | apps/backend/src/processing/metrics-calculator.ts:39 | one sorted time per peak |
| Metrics.PeakTimesEnds | apps/backend/src/processing/metrics-calculator.ts:42-44 | the first and last peak of the sorted copy carry the earliest and the latest peak time, each attained by an input peak |
| Metrics.Clamp | apps/backend/src/processing/metrics-calculator.ts:55-58 | the clamped value lies in [lo, hi] and a value already inside is unchanged |
| Metrics.RateOfTimes | apps/backend/src/processing/metrics-calculator.ts:33-59 | the rate is 0 with fewer than 2 peaks or a non-positive span, otherwise (n − 1)/span·60 clamped to [0, maxBreathingRate = 60] (apps/backend/src/config/index.ts:24-42), so always within that range |
| Metrics.BreathingRate | apps/backend/src/processing/metrics-calculator.ts:33-59 | the rate lies in [0, 60] and is 0 with fewer than 2 peaks |
| Metrics.IntervalsMs | apps/backend/src/processing/metrics-calculator.ts:72-75 | one gap per consecutive pair of sorted peaks |
| Metrics.IntervalsTelescope | apps/backend/src/processing/metrics-calculator.ts:72-77 | the gaps add up to (last − first)·1000 |
| Metrics.BuildIntervals | apps/backend/src/processing/metrics-calculator.ts:70-75 | the push loop builds exactly the consecutive gaps of the sorted peak times, in ms |
| Metrics.AverageBreathLength | apps/backend/src/processing/metrics-calculator.ts:64-79 | 0 with fewer than 2 peaks; otherwise the rounded mean gap equals Math.round((last − first)·1000/(n − 1)) |
| Metrics.MeanBreathLengthMs | apps/backend/src/processing/metrics-calculator.ts:64-79 | 0 with fewer than 2 peaks, and never negative |
| Metrics.SumSquaredDiffs | apps/backend/src/processing/metrics-calculator.ts:102-103 | a sum of squared deviations is never negative |
| Metrics.CoefficientOfVariation | apps/backend/src/processing/metrics-calculator.ts:98-110 | the clamped coefficient of variation lies in [0, 1] whatever sqrt returns |
| Metrics.VariabilityOf | apps/backend/src/processing/metrics-calculator.ts:85-111 | variability lies in [0, 1] and is 0 with fewer than 3 peaks |
| Metrics.ZeroSpanZeroVariability | apps/backend/src/processing/metrics-calculator.ts:98-100 | when all peaks share one time the mean gap is 0 and the variability is 0 |
| Metrics.ConstantSum | apps/backend/src/processing/metrics-calculator.ts:98-103 | equal gaps sum to n·c and have no squared deviation from c |
| Metrics.RegularBreathingZeroVariability | apps/backend/src/processing/metrics-calculator.ts:98-110 | equal gaps give variability 0 when sqrt(0) = 0 |
| Metrics.Variability | apps/backend/src/processing/metrics-calculator.ts:85-111 | the method computes the clamped coefficient of variation of the sorted gaps, with the 3-peak and zero-mean exits |
| Metrics.IntMin | apps/backend/src/processing/metrics-calculator.ts:126 | Math.min(...values) is at most every value |
| Metrics.IntMax | apps/backend/src/processing/metrics-calculator.ts:127 | Math.max(...values) is at least every value |
| Metrics.RawInts | apps/backend/src/processing/metrics-calculator.ts:123 | one raw value per sample |
| Metrics.Range | apps/backend/src/processing/metrics-calculator.ts:126-128 | the range of the raw values is never negative |
| Metrics.BreathDepth | apps/backend/src/processing/metrics-calculator.ts:118-138 | 0 with fewer than 10 samples; otherwise never below the range, exactly the range with fewer than 2 peaks, and with 2 or more the larger of the range and round(2·mean prominence), so rounding the larger real equals taking the larger rounded value |
| Metrics.Calculate | apps/backend/src/processing/metrics-calculator.ts:12-28 | the four metrics are rate, mean breath length, variability and depth of the same peaks and samples |
| Metrics.BreathingRateOrderIrrelevant | apps/backend/src/processing/metrics-calculator.ts:33-59 | the rate is the same for any permutation of the peaks and any timeWindowSeconds argument |
| Metrics.MeanBreathLengthOrderIrrelevant | apps/backend/src/processing/metrics-calculator.ts:64-79 | the average breath length is the same for any permutation of the peaks |
| Metrics.VariabilityOrderIrrelevant | apps/backend/src/processing/metrics-calculator.ts:85-111 | the variability is the same for any permutation of the peaks |
| Metrics.SamePeakTimes | apps/backend/src/processing/metrics-calculator.ts:39 | permutations of the same peaks have the same sorted times |
| Pipeline.LastN | apps/backend/src/processing/pipeline.ts:37-40 | the kept buffer has min(k, n) elements |
| Pipeline.LastNPush | apps/backend/src/processing/pipeline.ts:35-40 | pushing onto a trimmed buffer and trimming again keeps the last n of everything pushed |
| Pipeline.LatestFrom | apps/backend/src/processing/pipeline.ts:59-61 | the reduce returns its seed or an element of the rest, with a timestamp no smaller than any of them |
| Pipeline.LatestPeak | apps/backend/src/processing/pipeline.ts:58-62 | the chosen peak is one of the peaks and has the maximum timestamp |
| Pipeline.EvaluateApneaRisk | apps/backend/src/processing/pipeline.ts:86-116 | a signal quality below 0.3 gives MEDIUM; HIGH exactly when the signal is not poor, there is a (truthy) last breath and the gap exceeds 5000 ms; LOW exactly when the signal is not poor, the gap (if any) is at most 3500 ms and the rate is at least 4; MEDIUM otherwise |
| Pipeline.PoorSignalOutranksGap | apps/backend/src/processing/pipeline.ts:93-103 | poor signal gives MEDIUM even when the breath gap is beyond the threshold |
| Pipeline.NoLastBreathNeverHigh | apps/backend/src/processing/pipeline.ts:98 | with a null or 0 last breath the gap checks are skipped: never HIGH, and only signal and rate decide |
| Pipeline.TimeWindowSeconds | apps/backend/src/processing/pipeline.ts:149-153 | the window is never negative |
| Pipeline.TimeWindowIsSpread | apps/backend/src/processing/pipeline.ts:149-153 | the window is the latest minus the earliest timestamp of the buffer: no two samples are further apart, and two are exactly that far apart |
| Pipeline.ProcessRiskIgnoresSignalQuality | apps/backend/src/processing/pipeline.ts:51-66 | the risk `process` computes is the one an acceptable signal quality would give: the signal-quality rung never fires from `process` |
| Pipeline.Trim | apps/backend/src/processing/pipeline.ts:37-40 | the shift loop leaves the last sampleBufferSize = 30 samples (apps/backend/src/config/index.ts:30) |
| Pipeline.Analyze | apps/backend/src/processing/pipeline.ts:47-80 | detection, metrics, the last-breath update (latest peak time when peaks exist, else the previous value) and the risk, as FullOutcome states |
| Pipeline.Advance | apps/backend/src/processing/pipeline.ts:34-80 | the buffer becomes the last 30 of buffer + sample; below 10 samples the result is all-zero metrics, LOW and the kept last breath; otherwise the full outcome, whose last breath is stored |
| Pipeline.TracksUpdate | apps/backend/src/processing/pipeline.ts:28-40 | replacing one device's state by one that tracks its new history keeps every device tracked |
| Pipeline.TrackedBufferIsLatest | apps/backend/src/processing/pipeline.ts:35-40 | a tracked device's buffer holds its latest min(k, 30) of k received samples, in arrival order |
| Pipeline.EmptyResult | apps/backend/src/processing/pipeline.ts:133-144 | risk LOW, rate, breath length, variability and signal quality 0, no breath depth, and the device's last breath timestamp passed through |
| Pipeline.FullOutcome | apps/backend/src/processing/pipeline.ts:47-80 | no signal quality and a breath depth; the last breath moves to the latest peak's timestamp when there are peaks and stays otherwise; the risk is evaluated from that timestamp and the breathing rate with the signal-quality test off |
| Pipeline.ProcessingPipeline.constructor | apps/backend/src/processing/pipeline.ts:17-21 | the pipeline starts with no device state |
| Pipeline.ProcessingPipeline.Process | apps/backend/src/processing/pipeline.ts:26-81 | only the sample's device changes; its buffer is the last 30 samples it sent (a new device starts empty with a null last breath); the result is the empty result below 10 samples and the full outcome otherwise; breathIntervals is untouched |
| Pipeline.ProcessingPipeline.ClearDeviceState | apps/backend/src/processing/pipeline.ts:158-160 | exactly that device's state is removed and every other device keeps its state |
| Pipeline.ProcessingPipeline.DeviceState | apps/backend/src/processing/pipeline.ts:165-167 | a device has a state exactly when the map holds it, and it is the stored one |
| Alerts.MatchedRule | apps/backend/src/services/alert.service.ts:25-61 | the chain in priority order: HIGH risk gives APNEA_DETECTED/CRITICAL; else 0 < depth < 50 gives LOW_SIGNAL_QUALITY/WARNING; else variability > 0.5 and depth > 100 gives IRREGULAR_BREATHING/INFO; no rule matches exactly when none of the three conditions holds |
| Alerts.NoAlertKeepsCooldowns | apps/backend/src/services/alert.service.ts:60-80 | a null result leaves the cooldown map exactly as it was |
| Alerts.IssuedAlert | apps/backend/src/services/alert.service.ts:66-103 | an alert is issued iff a rule matches and its `deviceId:TYPE` key is out of its 30000 ms cooldown; it is that rule's alert stamped floor(now/1000), and only that key moves to now |
| Alerts.CooldownDoesNotFallThrough | apps/backend/src/services/alert.service.ts:27-80 | a matching HIGH-risk rule in cooldown gives null even when a lower rule would match, and the map is unchanged |
| Alerts.CooldownFromLastIssued | apps/backend/src/services/alert.service.ts:73-83 | an alert at t0, a suppressed repeat at t1 < t0 + 30000 and a repeat at t2 ≥ t0 + 30000: the cooldown runs from t0, so the third is issued |
| Alerts.CooldownKeysDistinct | apps/backend/src/services/alert.service.ts:73 | for any device ids, ':' included, the keys of different devices or types differ, so they never block each other |
| Alerts.AlertIfNotCooldown | apps/backend/src/services/alert.service.ts:66-103 | no alert exactly in cooldown, with the map unchanged; otherwise an alert of the device, type and severity stamped now in seconds, and the map gains exactly that key with now as its time |
| Alerts.EvaluateSample | apps/backend/src/services/alert.service.ts:25-61 | no matching rule gives no alert and the same map; an alert is of the matched rule's type and the sample's device; no alert leaves the map unchanged |
| Alerts.SeverityForRisk | apps/backend/src/services/alert.service.ts:108-118 | HIGH → CRITICAL, MEDIUM → WARNING, LOW → INFO, as equal ranks |
| Alerts.SeverityForRiskOrdered | apps/backend/src/services/alert.service.ts:108-118 | the mapping is one-to-one and order-preserving |
| Alerts.AlertService.constructor | apps/backend/src/services/alert.service.ts:18-20 | the service starts with an empty cooldown map |
| Alerts.AlertService.CreateAlertIfNotCooldown | apps/backend/src/services/alert.service.ts:66-103 | the result and the new map are those of AlertIfNotCooldown on the old map |
| Alerts.AlertService.Evaluate | apps/backend/src/services/alert.service.ts:25-61 | the result and the new map are those of EvaluateSample on the old map |
| Alerts.AlertService.ClearCooldown | apps/backend/src/services/alert.service.ts:123-129 | exactly the keys that start with the device id are deleted; every other key keeps its entry |
| Alerts.ClearCooldownPrefixCatchesLongerIds | apps/backend/src/services/alert.service.ts:125 | example: the prefix test for "dev-1" also matches the keys of "dev-10" |
| ProcessedSamplesRepo.RowToSample | apps/backend/src/storage/processed-samples.repo.ts:24-35 | id and device id are copied, signal_quality becomes breathDepth, and a timestamp column holding the decimal text of t gives back t |
| ProcessedSamplesRepo.InsertParams | apps/backend/src/storage/processed-samples.repo.ts:47-61 | eight parameters in column order, with breathDepth in the seventh (`signal_quality`) slot |
| ProcessedSamplesRepo.Insert | apps/backend/src/storage/processed-samples.repo.ts:44-64 | insert returns the input with the generated id, and writes the parameters in column order |
| ProcessedSamplesRepo.InsertRoundTrip | apps/backend/src/storage/processed-samples.repo.ts:24-64 | the row an insert stores, read back through rowToSample, is exactly the sample insert returned: breath depth goes out and comes back through signal_quality |
| ProcessedSamplesRepo.ActiveConditions | apps/backend/src/storage/processed-samples.repo.ts:97-110 | one condition per truthy filter; undefined, "" and 0 add none |
| ProcessedSamplesRepo.WhereClause | apps/backend/src/storage/processed-samples.repo.ts:112-114 | the clause is empty exactly when there are no conditions, and otherwise starts with "WHERE " |
| ProcessedSamplesRepo.NumberedConditions | apps/backend/src/storage/processed-samples.repo.ts:97-110 | the k-th condition text is its column test followed by placeholder $(k+1) |
| ProcessedSamplesRepo.BuildConditions | apps/backend/src/storage/processed-samples.repo.ts:93-110 | conditions in the order deviceId, from, to; the k-th uses placeholder $k and its value is the k-th parameter; paramIndex ends one past the parameter count |
| ProcessedSamplesRepo.EffectiveLimit | apps/backend/src/storage/processed-samples.repo.ts:116 | a falsy limit becomes 100, any other is kept |
| ProcessedSamplesRepo.GetHistory | apps/backend/src/storage/processed-samples.repo.ts:87-128 | the WHERE clause is built from the active conditions numbered $1..$k in the order deviceId, from, to; the parameters are those conditions' values followed by the limit, so the LIMIT placeholder is $params.length; the rows are mapped by rowToSample in order |
| ProcessedSamplesRepo.RowsToSamples | apps/backend/src/storage/processed-samples.repo.ts:127 | one sample per row, in order, each its rowToSample |
| ProcessedSamplesRepo.CountOf | apps/backend/src/storage/processed-samples.repo.ts:166 | a missing row or an empty count gives 0 |
| ProcessedSamplesRepo.CountOfRendered | apps/backend/src/storage/processed-samples.repo.ts:166 | a count the database renders in decimal is read back unchanged |
| ProcessedSamplesRepo.GetCount | apps/backend/src/storage/processed-samples.repo.ts:133-167 | the same WHERE clause and parameters as getHistory and no limit, so the parameter count equals the condition count; the count is CountOf of the row |
| ProcessedSamplesRepo.GetLatest | apps/backend/src/storage/processed-samples.repo.ts:69-82 | `WHERE device_id = $1` with the one parameter iff a device id is given, else no clause and no parameters; a row comes back through rowToSample and no row gives null |
| ApiTypes.ParseRawBreathSample | apps/backend/src/types/api.types.ts:13-17 | a body parses iff it is an object whose deviceId is a string of 1..64 UTF-16 code units, whose timestamp is a positive integer and whose rawValue is an integer in 0..4095; the parsed fields equal the body's |
| ApiTypes.RawSampleRoundTrip | apps/backend/src/types/api.types.ts:13-17 | a sample sent as its JSON body is accepted exactly when it meets the three field bounds (the id measured in UTF-16 code units), and then parses back unchanged |
| ApiTypes.TenBitReadingsAccepted | apps/backend/src/types/api.types.ts:16 | every 10-bit MCP3008 reading (0..1023) fits the 12-bit range the schema allows, for any id of 1..64 UTF-16 code units and positive timestamp |
| ApiTypes.Utf16Length | apps/backend/src/types/api.types.ts:14 | a string's UTF-16 length is between its code-point count and twice it, and equals the count when every character is in the Basic Multilingual Plane |
| ApiTypes.AstralIdsCountTwice | apps/backend/src/types/api.types.ts:14 | a 64-code-point id made of characters outside the Basic Multilingual Plane is 128 code units long and refused |
| ApiTypes.CoerceNumber | apps/backend/src/types/api.types.ts:25-27 | the empty string coerces to 0 and nothing coerces to a negative number |
| ApiTypes.ParseOptionalPositive | apps/backend/src/types/api.types.ts:25-26 | an absent value stays absent; a present one is accepted iff it coerces to a positive integer |
| ApiTypes.ParseLimit | apps/backend/src/types/api.types.ts:27 | an absent limit defaults to 100; a present one is accepted iff it coerces to 1..1000 |
| ApiTypes.ParseHistoryQuery | apps/backend/src/types/api.types.ts:24-29 | the query parses iff from, to and limit each do; deviceId passes through unchecked and the limit is within 1..1000 |
| ApiTypes.DeviceOnlyQuery | apps/backend/src/types/api.types.ts:28 | a query with only a device id, of any length, parses with the default limit |
| ApiTypes.InvertedRangeAccepted | apps/backend/src/types/api.types.ts:25-26 | from greater than to is still accepted as given |
| ApiTypes.LimitBounds | apps/backend/src/types/api.types.ts:27 | example: limits 0 and 1001 are refused; 1 and 1000 are accepted |
| Errors.NewApiError | apps/backend/src/types/errors.ts:8-26 | the base error carries the message, status, code and details exactly as given |
| Errors.NewValidationError | apps/backend/src/types/errors.ts:31-36 | status 400, code VALIDATION_ERROR, message and details as given |
| Errors.NewAuthenticationError | apps/backend/src/types/errors.ts:41-46 | status 401, code AUTHENTICATION_ERROR, no details; the message defaults to "Authentication required" |
| Errors.NewAuthorizationError | apps/backend/src/types/errors.ts:51-56 | status 403, code AUTHORIZATION_ERROR, no details; the message defaults to "Access denied" |
| Errors.NewNotFoundError | apps/backend/src/types/errors.ts:61-66 | status 404, code NOT_FOUND; the message is the resource (default "Resource") followed by " not found" |
| Errors.NewConflictError | apps/backend/src/types/errors.ts:71-76 | status 409, code CONFLICT, message as given |
| Errors.NewInternalError | apps/backend/src/types/errors.ts:81-86 | status 500, code INTERNAL_ERROR; the message defaults to "Internal server error" |
| Errors.NewServiceUnavailableError | apps/backend/src/types/errors.ts:91-96 | status 503, code SERVICE_UNAVAILABLE; the message is the service (default "Service") followed by " is temporarily unavailable" |
| Errors.SubclassTable | apps/backend/src/types/errors.ts:28-96 | the client-error classes have 4xx statuses and the server-error classes 5xx; no two classes share a status or a code |
| ErrorMiddleware.ErrorHandler | apps/backend/src/middleware/error.middleware.ts:9-49 | an ApiError answers with its own status, code, message and details; any other error answers 500 INTERNAL_ERROR with a fixed message; the body is never a success and is stamped with the current time |
| ErrorMiddleware.NotFoundHandler | apps/backend/src/middleware/error.middleware.ts:54-69 | 404 NOT_FOUND with the message "Route METHOD path not found" |
| ErrorMiddleware.OtherErrorsIndistinguishable | apps/backend/src/middleware/error.middleware.ts:38-48 | the name and message of an unexpected error never reach the client: any two get the same response |
| ErrorMiddleware.OtherErrorLikeInternal | apps/backend/src/middleware/error.middleware.ts:23-48 | an unexpected error is answered exactly as an InternalError with the fixed message would be |
| ErrorMiddleware.NotFoundAgreesWithNotFoundError | apps/backend/src/middleware/error.middleware.ts:54-69 | the route 404 is the response the error handler gives a NotFoundError for resource "Route METHOD path" |
| ErrorMiddleware.StatusFollowsClass | apps/backend/src/middleware/error.middleware.ts:34 | a well-formed error is answered with its class's status |
| AuthMiddleware.DeviceAuth | apps/backend/src/middleware/auth.middleware.ts:9-25 | a missing or empty key is refused as "Missing X-Device-Key header" and a wrong one as "Invalid API key", both with 401; next is called iff the header equals the configured key |
| AuthMiddleware.OptionalDeviceAuth | apps/backend/src/middleware/auth.middleware.ts:30-41 | next is always called; the request is marked authenticated iff the header equals the configured key |
| AuthMiddleware.StrictAgreesWithOptional | apps/backend/src/middleware/auth.middleware.ts:9-41 | deviceAuth lets through exactly the requests optionalDeviceAuth marks authenticated |
| BreathingModel.DepthCategory | apps/ios/BreathTracker/BreathTracker/Models/BreathingData.swift:41-49 | Shallow exactly below 150, Normal exactly from 150 to below 400, Deep exactly from 400 up |
| BreathingModel.DepthCategoryMonotone | apps/ios/BreathTracker/BreathTracker/Models/BreathingData.swift:41-49 | a deeper reading never falls in a shallower category |
| BreathingModel.IsBreathingStopped | apps/ios/BreathTracker/BreathTracker/Models/BreathingData.swift:74-76 | breathing counts as stopped when apnea is flagged or the rate is 0, and not otherwise |
| BreathingModel.Make | apps/ios/BreathTracker/BreathTracker/Models/BreathingData.swift:163-170 | the memberwise initialiser stores every argument as given |
| BreathingModel.TruncateTowardZero | apps/ios/BreathTracker/BreathTracker/Models/BreathingData.swift:125-160 | Int(Double) truncates toward zero: never past the value, and less than one away from it |
| BreathingModel.DecodeInt | apps/ios/BreathTracker/BreathTracker/Models/BreathingData.swift:125-160 | a key decodes as Int iff it holds a number with an integral value, and then to that value |
| BreathingModel.DecodeDouble | apps/ios/BreathTracker/BreathTracker/Models/BreathingData.swift:125-160 | a key decodes as Double iff it holds a number |
| BreathingModel.IntOrTruncated | apps/ios/BreathTracker/BreathTracker/Models/BreathingData.swift:125-160 | breathingRate and breathDepth: a number becomes its truncation toward zero; anything else, or no key, gives 0 |
| BreathingModel.IntervalMs | apps/ios/BreathTracker/BreathTracker/Models/BreathingData.swift:134-141 | breathLengthMs wins when it is an integer, else breathIntervalMs, else 0 |
| BreathingModel.ApneaFlag | apps/ios/BreathTracker/BreathTracker/Models/BreathingData.swift:143-151 | an apneaRisk string decides (apnea iff it is "HIGH"), else a Bool apneaDetected, else no apnea |
| BreathingModel.Decode | apps/ios/BreathTracker/BreathTracker/Models/BreathingData.swift:112-161 | decoding succeeds iff the value is an object whose timestamp is a number; every other field is taken by its fallback chain |
| BreathingModel.DecodeBackendSample | apps/ios/BreathTracker/BreathTracker/Models/BreathingData.swift:98-161 | a sample in the backend's format decodes with its id, its length as the interval, its rate and depth truncated, and apnea iff its risk is HIGH |
| BreathingModel.StoppedBackendSample | apps/ios/BreathTracker/BreathTracker/Models/BreathingData.swift:75-146 | a decoded backend sample counts as stopped iff its risk is HIGH or its rate truncates to 0 |
| BreathingModel.RiskStringOverridesFlag | apps/ios/BreathTracker/BreathTracker/Models/BreathingData.swift:145-151 | an apneaRisk other than HIGH means no apnea even beside apneaDetected = true |
| BreathingModel.MockSampleRoundTrip | apps/ios/BreathTracker/BreathTracker/Models/BreathingData.swift:100-170 | data the app builds, written with the mock keys, decodes back to itself |
| LiveBreathing.Status | apps/ios/BreathTracker/BreathTracker/ViewModels/LiveBreathingViewModel.swift:27-45 | no data is a warning; critical exactly when the data shows breathing stopped; normal exactly when breathing, the rate is within 12...20 and the signal quality is at least 0.7 |
| LiveBreathing.PlayStep | apps/ios/BreathTracker/BreathTracker/ViewModels/LiveBreathingViewModel.swift:143-147 | afterwards the alarm is playing and nothing else changed; the service is called only when it was not already playing |
| LiveBreathing.StopStep | apps/ios/BreathTracker/BreathTracker/ViewModels/LiveBreathingViewModel.swift:149-152 | the service is always called once and the alarm flag is cleared; nothing else changes |
| LiveBreathing.UpdateStep | apps/ios/BreathTracker/BreathTracker/ViewModels/LiveBreathingViewModel.swift:117-141 | the update stores the data; nil changes nothing else; it stops the alarm at most once, exactly when breathing has recovered from a stopped state; stopped data leaves the alert shown |
| LiveBreathing.DismissStep | apps/ios/BreathTracker/BreathTracker/ViewModels/LiveBreathingViewModel.swift:95-98 | dismissing marks the alarm dismissed and not playing, stops it once, and leaves the alert and the data as they were |
| LiveBreathing.StoppedUpdate | apps/ios/BreathTracker/BreathTracker/ViewModels/LiveBreathingViewModel.swift:117-131 | stopped data raises the alert and keeps the dismissal; the alarm starts iff it was neither dismissed nor playing, and otherwise no call is made |
| LiveBreathing.PlayIdempotent | apps/ios/BreathTracker/BreathTracker/ViewModels/LiveBreathingViewModel.swift:143-147 | playing while already playing does nothing |
| LiveBreathing.RecoveryClearsAlarm | apps/ios/BreathTracker/BreathTracker/ViewModels/LiveBreathingViewModel.swift:132-140 | breathing data right after stopped data clears the alert, the dismissal and the alarm, with one stop call |
| LiveBreathing.NormalAfterNormalChangesNothing | apps/ios/BreathTracker/BreathTracker/ViewModels/LiveBreathingViewModel.swift:132-140 | breathing data after breathing data, or after none, only replaces the current data |
| LiveBreathing.NilUpdateKeepsFlags | apps/ios/BreathTracker/BreathTracker/ViewModels/LiveBreathingViewModel.swift:117-121 | a nil update clears the current data and leaves every flag as it was |
| LiveBreathing.NilHidesRecovery | apps/ios/BreathTracker/BreathTracker/ViewModels/LiveBreathingViewModel.swift:117-140 | stopped, then nil, then breathing data leaves the alert active: the recovery is compared against nil and missed |
| LiveBreathing.DismissHoldsUntilRecovery | apps/ios/BreathTracker/BreathTracker/ViewModels/LiveBreathingViewModel.swift:93-131 | dismissing silences the alarm and keeps the alert, and later stopped data does not restart the alarm |
| LiveBreathing.ConsistentPreserved | apps/ios/BreathTracker/BreathTracker/ViewModels/LiveBreathingViewModel.swift:117-152 | data updates, dismissing and stopping all keep the alarm from playing without an active alert |
| LiveBreathing.InitialConsistent | apps/ios/BreathTracker/BreathTracker/ViewModels/LiveBreathingViewModel.swift:16-22 | the initial state has no alarm and no alert |
| LiveBreathing.LiveBreathingViewModel.constructor | apps/ios/BreathTracker/BreathTracker/ViewModels/LiveBreathingViewModel.swift:70-78 | starts with no data, no alert, no alarm, no dismissal, and no service calls |
| LiveBreathing.LiveBreathingViewModel.BreathingStatus | apps/ios/BreathTracker/BreathTracker/ViewModels/LiveBreathingViewModel.swift:27-45 | the displayed status is the status of the current data |
| LiveBreathing.LiveBreathingViewModel.PlayAlarm | apps/ios/BreathTracker/BreathTracker/ViewModels/LiveBreathingViewModel.swift:143-147 | the new state and the alarm calls are those of the play step |
| LiveBreathing.LiveBreathingViewModel.StopAlarm | apps/ios/BreathTracker/BreathTracker/ViewModels/LiveBreathingViewModel.swift:149-152 | the new state is the stop step's and one stop call is appended |
| LiveBreathing.LiveBreathingViewModel.HandleDataUpdate | apps/ios/BreathTracker/BreathTracker/ViewModels/LiveBreathingViewModel.swift:117-141 | the new state and the calls appended are those of the update step, and the alarm plays only during an alert |
| LiveBreathing.LiveBreathingViewModel.DismissAlarm | apps/ios/BreathTracker/BreathTracker/ViewModels/LiveBreathingViewModel.swift:95-98 | marks the alarm dismissed and stops it with one call |
| LiveBreathing.LiveBreathingViewModel.StartMonitoring | apps/ios/BreathTracker/BreathTracker/ViewModels/LiveBreathingViewModel.swift:83-85 | appends one start call to the data service and changes nothing else |
| LiveBreathing.LiveBreathingViewModel.StopMonitoring | apps/ios/BreathTracker/BreathTracker/ViewModels/LiveBreathingViewModel.swift:88-91 | stops the data service, then the alarm, so nothing is left playing |
| History.StatusText | apps/ios/BreathTracker/BreathTracker/ViewModels/HistoryViewModel.swift:74-84 | apnea first; then "Low Rate" below 12, "High Rate" above 20, and "Normal" exactly within 12...20 without apnea |
| History.StatusColorName | apps/ios/BreathTracker/BreathTracker/ViewModels/HistoryViewModel.swift:87-95 | red exactly on apnea, orange exactly for a rate outside 12...20 without apnea, green otherwise |
| History.TextAndColourAgree | apps/ios/BreathTracker/BreathTracker/ViewModels/HistoryViewModel.swift:74-95 | the label and the colour always agree: Normal with green, a rate label with orange, apnea with red |
| History.HistoryViewModel.constructor | apps/ios/BreathTracker/BreathTracker/ViewModels/HistoryViewModel.swift:10-32 | starts with no data, not loading, no error and no request |
| History.HistoryViewModel.FetchHistory | apps/ios/BreathTracker/BreathTracker/ViewModels/HistoryViewModel.swift:37-45 | a fetch while loading changes nothing; otherwise it starts loading, clears the error and asks for 50 records, keeping the data |
| History.HistoryViewModel.CompleteFetch | apps/ios/BreathTracker/BreathTracker/ViewModels/HistoryViewModel.swift:44-55 | loading ends; success replaces the data and keeps the error, failure keeps the data and records the description |
| History.HistoryViewModel.Refresh | apps/ios/BreathTracker/BreathTracker/ViewModels/HistoryViewModel.swift:60-62 | behaves as fetchHistory |
| History.HistoryViewModel.ClearError | apps/ios/BreathTracker/BreathTracker/ViewModels/HistoryViewModel.swift:65-67 | clears the error and changes nothing else |
| DataService.StatusText | apps/ios/BreathTracker/BreathTracker/Services/BreathingDataService.swift:15-26 | an error state reads "Error: " followed by its message |
| DataService.StatusTextDistinguishes | apps/ios/BreathTracker/BreathTracker/Services/BreathingDataService.swift:15-26 | an error's text ends with its message, and two states have the same text only if they are the same state |
| DataService.IsConnected | apps/ios/BreathTracker/BreathTracker/Services/BreathingDataService.swift:11-13 | the service is connected exactly in the connected state |
| DataService.ConnectedIffText | apps/ios/BreathTracker/BreathTracker/Services/BreathingDataService.swift:11-26 | the service is connected exactly when its status reads "Connected"; an error state is never connected |
| DataService.ErrorDescription | apps/ios/BreathTracker/BreathTracker/Services/BreathingDataService.swift:64-77 | every error has a description; a server error's is "Server error with code: " followed by the code in decimal |
| DataService.ServerErrorCodeReadBack | apps/ios/BreathTracker/BreathTracker/Services/BreathingDataService.swift:72-73 | the status code can be read back from a server error's description, negative codes included |
| DataService.FixedDescriptions | apps/ios/BreathTracker/BreathTracker/Services/BreathingDataService.swift:66-75 | example: invalidURL and noData have their fixed descriptions |
| Text.NatToString | Hardware/src/main.cpp:81 | the decimal rendering is non-empty, all digits, and starts with '0' only for zero |
| Text.NatToStringRoundTrip | apps/backend/src/storage/processed-samples.repo.ts:28 | reading the decimal rendering of n back as digits gives n |
| Text.NatToStringInjective | apps/backend/src/storage/processed-samples.repo.ts:28 | different numbers have different decimal renderings |
| Text.IntToString | apps/ios/BreathTracker/BreathTracker/Services/BreathingDataService.swift:73 | the rendering of an integer is never empty |
| Text.DigitPrefix | Hardware/src/main.cpp:181 | the digits atoi consumes are a prefix of the text and are followed by no further digit |
| Text.SkipCSpace | Hardware/src/main.cpp:181 | the whitespace atoi skips is a prefix of the text, and what remains does not start with whitespace |
| Text.DigitPrefixOfDigits | Hardware/src/main.cpp:181 | a string of digits is consumed whole |
| Text.AtoiOfNatToString | Hardware/src/main.cpp:181 | the digit reading reads back the decimal rendering of any natural number (before the conversion to int) |
| Text.AtoiOfZero | Hardware/src/main.cpp:181-185 | example: atoi of "0" is 0, which the poll-interval check then refuses |
| Text.AtoiOfIntToString | apps/ios/BreathTracker/BreathTracker/Services/BreathingDataService.swift:73 | atoi reads back the rendering of any integer, negative ones included |
| Text.ClampLong | Hardware/src/main.cpp:181 | strtol's saturation to the 64-bit range: values inside pass through |
| Text.WrapInt32 | Hardware/src/main.cpp:181 | the narrowing of a long to int: the result is in the 32-bit range, congruent modulo 2^32, and the value itself when it fits |
| Text.WrapInt32Upper | Hardware/src/main.cpp:181 | values in 2147483648..4294967295 wrap to that value minus 2^32, a negative int |
| Text.CAtoi | Hardware/src/main.cpp:181 | atoi's result is always in the 32-bit range, equals the digit reading when that fits, and otherwise is its saturated value wrapped modulo 2^32 |
| Text.CAtoiOfNatToString | Hardware/src/main.cpp:181 | atoi reads back the decimal rendering of every number up to 2147483647 |
| SensorMain.Run | Hardware/src/main.cpp:219-264 | running the loop over any sequence of iterations keeps both counters within uint32_t |

## Left out

- Logging is not modelled, because it only produces output. This covers `logInfo`, `logWarn` and `logError`, `logMessage` with its `strftime` timestamps, the backend `logger`, and the message printed every fifth sample.
- The SIGINT/SIGTERM handler and `g_running` are not modelled. The model stops the loop at the end of its sequence of iterations, and the flag is checked only at the start of an iteration, as in the code.
- `getSimulatedBreathValue` is not modelled, because its sin and rand cannot be expressed here and `main` never calls it.
- SensorMain.BuildJsonPayload: the text `std::fixed << std::setprecision(4)` makes of the voltage is a formatter parameter. Only the layout and the order of the fields are modelled.
- Rest.RestClient.Post: the libcurl options are not modelled one by one (method, headers, redirects, TLS verification, no signals). The recorded request keeps the URL, the payload and both timeouts.
- Adc.Mcp3008.SpiTransfer: the kernel's replies to `write` and `read` are parameters. The driver's frame, its length checks and its error texts are modelled.
- BackendConfig: the backend reads its settings from `process.env` (apps/backend/src/config/index.ts:12-43), and the model fixes each at its default rather than taking the environment as a parameter. The defaults are an apnea threshold of 5000 ms, a minimum signal quality of 0.3, a buffer of 30 samples, a peak prominence of 50, a minimum peak distance of 1000 ms, breathing rates between 4 and 60 per minute, and the device API key "dev-api-key-change-in-production". The port, the database URL and the CORS origins are not modelled.
- SensorMain.PollInterval: `atoi` on a number outside the `int` range is undefined behaviour in C. The model follows glibc on a 64-bit target, where `atoi` is `(int) strtol(...)`: values beyond the `long` range saturate and the result keeps the low 32 bits (`Text.CAtoi`). Other C libraries may differ.
- Adc.Mcp3008.MoveFrom: the moved-from driver's device path is left unspecified, as `std::move` leaves a moved-from `std::string`. The contract promises only that the source's descriptor is -1.
- Adc.Mcp3008.MoveAssign: in the same way, the source's device path after the move is unspecified.
- Rest.RestClient.MoveFrom: the moved-from client's base URL is unspecified after `std::move`. Its handle is null, and its timeouts, which are plain integers, keep their values.
- Rest.RestClient.MoveAssign: in the same way, the source's base URL after a move assignment is unspecified. Its handle is null, and its timeouts keep their values.
- Binary floating point is not modelled. Smoothing, rates, variability and voltages use exact reals.
- Metrics.Round: `Math.round` is floor(x + 1/2) on exact reals. Its behaviour at the ties of binary doubles is not modelled.
- Metrics.Variability: `Math.sqrt` is a parameter. The bounds proved assume only that it returns a real, and a zero variability for regular breathing also needs sqrt(0) = 0.
- ApiTypes.CoerceNumber: `Number(text)` is modelled for the empty string and plain decimal digits only, so the model refuses query values that the source accepts. `z.coerce.number()` reads " 5", "+5", "5.0", "1e2" and "0x10" as 5, 5, 5, 100 and 16; the model takes each of them as NaN, which the schema then refuses.
- ApiTypes.ParseRawBreathSample: a device id's length is counted in UTF-16 code units, as JavaScript counts it. Dafny strings hold Unicode scalar values, so unpaired surrogates, which a JavaScript string may hold, cannot be expressed.
- ApiTypes.ParseRawBreathSample: zod's error messages and issue paths are not modelled; a refused body gives None.
- ProcessedSamplesRepo.RowToSample: `parseInt` is modelled on the decimal text the database renders. NaN for non-numeric text is not modelled.
- `deleteOlderThan` (apps/backend/src/storage/processed-samples.repo.ts:172-184) is not modelled. It is a retention query with no logic beyond the SQL, and nothing in the backend calls it.
- The database, the connection pool and query execution are not modelled. The repository model is the SQL text and parameters it builds and the rows it is given back.
- Alerts.SeverityForRisk: the default branch of `getSeverityForRisk` cannot be reached, because the risk type has only LOW, MEDIUM and HIGH.
- BreathingModel.Decode: Swift's refusal to decode numbers outside the 64-bit Int range, and the trap of `Int(Double)` on an out-of-range value, are not modelled. UUID parsing and generation are parameters.
- LiveBreathing.LiveBreathingViewModel: the Combine bindings, the main-queue hop and the `connectionState` assignment are not modelled. A data update is a direct call to `HandleDataUpdate`.
- History.HistoryViewModel: the `Task` and `MainActor` hops are modelled as two steps, `FetchHistory` starting the fetch and `CompleteFetch` finishing it. What may run between the two is not modelled.
- The app's display-only members are not modelled: `formattedTime` with its `DateFormatter`, `displayBreathingRate`, `displaySignalQuality` and `lastUpdateTime`. The audio alarm's AVFoundation playback is also left out; the alarm is observed only through the calls made to it.
- The compiled copies under `apps/backend/dist` are not modelled, because they duplicate `src` and are partly stale.
- The network and I/O plumbing, the HTTP routes and the websocket server are not part of this model. Neither are the polling and websocket services, nor the SwiftUI views.
