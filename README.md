# Webtrekk Android SDK tracking core, modelled in Dafny

This project models the core of the Webtrekk Android tracking SDK. Two parts are covered:

- **`RequestUrlStore`**: the bounded in-memory queue of tracking URLs. When it is full, adding a URL drops the oldest one. The queue is backed up to a file in the cache directory, one URL per line.
- **`Webtrekk`**: the tracker object. It covers:
  - initialisation, which selects the configuration and makes the sampling decision;
  - building a request from the layered tracking parameters;
  - gating a request on opt-out and sampling before it is enqueued;
  - counting running activities;
  - the single-flight guard that submits the request processor.

How the Android world is represented:

- The backup file is modelled as its text, `Option<string>`. `None` means no file exists.
- Reading the file follows `BufferedReader.readLine`: a line ends at `\n`, at `\r` or at `\r\n`.
- Writing the file follows `PrintWriter.println` with `\n` as the line separator.
- The shared preferences are a record of optional values.
- The XML parser and `TrackingRequest.getUrlString` are functions the tracker is given at construction.
- Device facts, the timestamp, the ever-id and the first-start flag are inputs: an `Environment` at initialisation and a `DynamicFacts` per request.
- The executor's `Future` is the flag `requestInFlight`. `RequestProcessorFinished` is the event that makes it done.
- Plugin hooks are recorded as a log of `PluginCall` events.
- `TrackingParameter` has these semantics:
  - a map from parameter keys to strings;
  - `add` is last-writer-wins;
  - `applyMapping(m)` replaces every value that is a key of `m` by its image under `m`.

Files and modules:

| file | module | contents |
|---|---|---|
| wrappers.dfy | `Wrappers` | `Option`, `Result`, `Outcome` |
| tracking_parameter.dfy | `TrackingParameter` | parameter keys, `Add`, `ApplyMapping`, overlays of layers |
| request_store.dfy | `RequestStore` | `RequestUrlStore`, eviction, backup file text, the save/load round trip |
| preferences.dfy | `Preferences` | the shared preference values the tracker reads and writes |
| sampling.dfy | `Sampling` | Java's remainder, the sampling decision and its cache |
| configuration.dfy | `Configuration` | the tracking configuration and the choice between bundled and cached configuration |
| request_builder.dfy | `RequestBuilder` | the layers of a request and the precedence between them |
| webtrekk.dfy | `Tracker` | the `Webtrekk` class |

## Model

| member | source | states |
|---|---|---|
| RequestStore.RequestUrlStore.constructor | WebtrekkSDK/WebtrekkSDK/src/main/java/com/webtrekk/webtrekksdk/RequestUrlStore.java:33-45 | with a capacity of at least 1 the store starts empty, with that capacity and the given backup file |
| RequestStore.RequestUrlStore.Create | WebtrekkSDK/WebtrekkSDK/src/main/java/com/webtrekk/webtrekksdk/RequestUrlStore.java:37-41 | construction fails exactly when the capacity is below 1; otherwise the store is fresh and empty |
| RequestStore.RequestUrlStore.Add | WebtrekkSDK/WebtrekkSDK/src/main/java/com/webtrekk/webtrekksdk/RequestUrlStore.java:52-58 | the list becomes `Appended(old list, capacity, url)`; a list within capacity stays within capacity |
| RequestStore.AddEffect | WebtrekkSDK/WebtrekkSDK/src/main/java/com/webtrekk/webtrekksdk/RequestUrlStore.java:52-58 | the url becomes last; at or over capacity exactly the entry at index 0 is dropped and the rest keep their order; below capacity nothing else changes; a list within capacity stays within it, an over-full one keeps its length |
| RequestStore.AddsKeepNewest | WebtrekkSDK/WebtrekkSDK/src/main/java/com/webtrekk/webtrekksdk/RequestUrlStore.java:52-58 | from a list within capacity, any sequence of adds leaves the newest `maximumRequests` entries of list followed by urls, in order |
| RequestStore.AddsFromEmpty | WebtrekkSDK/WebtrekkSDK/src/main/java/com/webtrekk/webtrekksdk/RequestUrlStore.java:52-58 | from an empty store, n adds leave the last `min(n, maximumRequests)` of the added urls, in order |
| RequestStore.RequestUrlStore.Get | WebtrekkSDK/WebtrekkSDK/src/main/java/com/webtrekk/webtrekksdk/RequestUrlStore.java:60-62 | defined exactly for an index inside the list, and then it is the entry at that index |
| RequestStore.RequestUrlStore.Remove | WebtrekkSDK/WebtrekkSDK/src/main/java/com/webtrekk/webtrekksdk/RequestUrlStore.java:64-66 | succeeds exactly for an index inside the list, deleting that entry and keeping the rest in order; otherwise nothing changes |
| RequestStore.RequestUrlStore.Size | WebtrekkSDK/WebtrekkSDK/src/main/java/com/webtrekk/webtrekksdk/RequestUrlStore.java:68-70 | the number of entries |
| RequestStore.RequestUrlStore.Clear | WebtrekkSDK/WebtrekkSDK/src/main/java/com/webtrekk/webtrekksdk/RequestUrlStore.java:72-74 | the list becomes empty |
| RequestStore.LineEnd | WebtrekkSDK/WebtrekkSDK/src/main/java/com/webtrekk/webtrekksdk/RequestUrlStore.java:88 | the end of the first line: no terminator before it, and a terminator at it unless the text ends there |
| RequestStore.ReadLine | WebtrekkSDK/WebtrekkSDK/src/main/java/com/webtrekk/webtrekksdk/RequestUrlStore.java:88 | no line exactly for empty text; otherwise the line is the text up to the first terminator, followed by nothing (end of text), \n, \r\n, or \r not followed by \n, and then the rest |
| RequestStore.ReadLineOfLine | WebtrekkSDK/WebtrekkSDK/src/main/java/com/webtrekk/webtrekksdk/RequestUrlStore.java:88 | reading a line followed by `\n` gives back that line and the rest |
| RequestStore.JoinedSnoc | WebtrekkSDK/WebtrekkSDK/src/main/java/com/webtrekk/webtrekksdk/RequestUrlStore.java:116-118 | writing one more entry appends it and a newline to the text |
| RequestStore.LinesOfJoined | WebtrekkSDK/WebtrekkSDK/src/main/java/com/webtrekk/webtrekksdk/RequestUrlStore.java:85-121 | for entries without line breaks, reading back the written text gives the same entries in the same order |
| RequestStore.RequestUrlStore.LoadRequestsFromFile | WebtrekkSDK/WebtrekkSDK/src/main/java/com/webtrekk/webtrekksdk/RequestUrlStore.java:79-98 | the list becomes the old list followed by the file's lines, in order; nothing changes without a file; no eviction |
| RequestStore.RequestUrlStore.SaveRequestsToFile | WebtrekkSDK/WebtrekkSDK/src/main/java/com/webtrekk/webtrekksdk/RequestUrlStore.java:104-131 | the file becomes every entry, one per line, in list order; the list is not touched |
| RequestStore.RequestUrlStore.DeleteRequestsFile | WebtrekkSDK/WebtrekkSDK/src/main/java/com/webtrekk/webtrekksdk/RequestUrlStore.java:136-148 | afterwards no backup file exists |
| RequestStore.BackupRoundTrip | WebtrekkSDK/WebtrekkSDK/src/main/java/com/webtrekk/webtrekksdk/RequestUrlStore.java:85-121 | save, load into an empty store and delete restore the same sequence and leave no file |
| TrackingParameter.Add | WebbtrekkSDK/WebtrekkSDK/src/main/java/com/webtrekk/webtrekksdk/Webtrekk.java:655 | `add` of parameters: the keys of both, the added value wherever the added map has the key, the old value elsewhere |
| TrackingParameter.ApplyMapping | WebbtrekkSDK/WebtrekkSDK/src/main/java/com/webtrekk/webtrekksdk/Webtrekk.java:696 | the same keys; a value that is a key of the mapping is replaced by its image, others are kept |
| TrackingParameter.OverlayKeys | WebbtrekkSDK/WebtrekkSDK/src/main/java/com/webtrekk/webtrekksdk/Webtrekk.java:641-702 | a key is in the overlay of layers exactly when some layer has it |
| TrackingParameter.OverlayLastWriterWins | WebbtrekkSDK/WebtrekkSDK/src/main/java/com/webtrekk/webtrekksdk/Webtrekk.java:641-702 | a key takes its value from the last layer that has it |
| TrackingParameter.OverlayOfEight | WebbtrekkSDK/WebtrekkSDK/src/main/java/com/webtrekk/webtrekksdk/Webtrekk.java:643-692 | the overlay of eight layers is the eight successive adds |
| RequestBuilder.NatToString | WebbtrekkSDK/WebtrekkSDK/src/main/java/com/webtrekk/webtrekksdk/Webtrekk.java:493 | `String.valueOf` of a natural number: a non-empty string of decimal digits, of length 1 exactly below 10 |
| RequestBuilder.NatToStringDenotes | WebbtrekkSDK/WebtrekkSDK/src/main/java/com/webtrekk/webtrekksdk/Webtrekk.java:493 | the digits denote the number, and only 0 starts with the digit 0 |
| RequestBuilder.IntToString | WebbtrekkSDK/WebtrekkSDK/src/main/java/com/webtrekk/webtrekksdk/Webtrekk.java:359 | `"" + sampling`: non-empty, with a leading minus sign exactly for negative numbers |
| RequestBuilder.IntToStringDenotes | WebbtrekkSDK/WebtrekkSDK/src/main/java/com/webtrekk/webtrekksdk/Webtrekk.java:359 | a non-negative number is spelled by its digits; a negative one by a minus sign and the digits of its magnitude; no leading zeros |
| RequestBuilder.ActionFacts | WebbtrekkSDK/WebtrekkSDK/src/main/java/com/webtrekk/webtrekksdk/Webtrekk.java:652-654 | of the device facts, exactly resolution, depth and user agent that the tracker holds, with the values it holds |
| RequestBuilder.FullLayersInOrder | WebbtrekkSDK/WebtrekkSDK/src/main/java/com/webtrekk/webtrekksdk/Webtrekk.java:643-692 | the full request's parameters are the eight layers added one after the other in the code's order |
| RequestBuilder.ActionRequestContents | WebbtrekkSDK/WebtrekkSDK/src/main/java/com/webtrekk/webtrekksdk/Webtrekk.java:649-657 | an action request has exactly the activity name, the timestamp, the held device facts and the call's keys; the call's values are kept, and device facts it does not set keep the held values |
| RequestBuilder.ActionRequestHasNoInternalParameters | WebbtrekkSDK/WebtrekkSDK/src/main/java/com/webtrekk/webtrekksdk/Webtrekk.java:649-657 | no global, configured, activity, mapping or internal key reaches an action request unless the call passes it |
| RequestBuilder.FullRequestKeys | WebbtrekkSDK/WebtrekkSDK/src/main/java/com/webtrekk/webtrekksdk/Webtrekk.java:641-702 | a full request's keys are exactly the keys of its eight layers |
| RequestBuilder.FullRequestPrecedence | WebbtrekkSDK/WebtrekkSDK/src/main/java/com/webtrekk/webtrekksdk/Webtrekk.java:641-702 | a key's value is that of the last layer that has it, passed through the custom mapping |
| RequestBuilder.InternalParametersWin | WebbtrekkSDK/WebtrekkSDK/src/main/java/com/webtrekk/webtrekksdk/Webtrekk.java:692 | internal parameters override every other layer |
| RequestBuilder.CallParametersOverrideGlobals | WebbtrekkSDK/WebtrekkSDK/src/main/java/com/webtrekk/webtrekksdk/Webtrekk.java:675 | the call's parameters override device facts and both global layers |
| RequestBuilder.ConfigGlobalsOverrideCodeGlobals | WebbtrekkSDK/WebtrekkSDK/src/main/java/com/webtrekk/webtrekksdk/Webtrekk.java:665-672 | configured global parameters override the ones set in code |
| RequestBuilder.ActivityParametersOverrideCall | WebbtrekkSDK/WebtrekkSDK/src/main/java/com/webtrekk/webtrekksdk/Webtrekk.java:678-683 | an activity's configured parameters override the call's |
| RequestBuilder.MappingNameRenamesActivity | WebbtrekkSDK/WebtrekkSDK/src/main/java/com/webtrekk/webtrekksdk/Webtrekk.java:685-687 | a configured mapping name replaces the activity name |
| RequestBuilder.BaseLayerSurvives | WebbtrekkSDK/WebtrekkSDK/src/main/java/com/webtrekk/webtrekksdk/Webtrekk.java:645-647 | without an override, a full request carries the current activity name and the timestamp |
| RequestBuilder.ResolutionIsRefreshed | WebbtrekkSDK/WebtrekkSDK/src/main/java/com/webtrekk/webtrekksdk/Webtrekk.java:660-662 | without an override, a full request carries the resolution of the current request |
| Sampling.JavaRemainder | WebbtrekkSDK/WebtrekkSDK/src/main/java/com/webtrekk/webtrekksdk/Webtrekk.java:328 | Java's truncating `%`: the remainder has the dividend's sign, is smaller than the divisor, and differs from the dividend by a multiple of the divisor |
| Sampling.JavaRemainderZero | WebbtrekkSDK/WebtrekkSDK/src/main/java/com/webtrekk/webtrekksdk/Webtrekk.java:328 | Java's remainder is zero exactly when the Euclidean one is |
| Sampling.IsSampledOut | WebbtrekkSDK/WebtrekkSDK/src/main/java/com/webtrekk/webtrekksdk/Webtrekk.java:327-331 | a device is excluded exactly when the rate is above 1 and the ever-id is not a multiple of it |
| Sampling.CachedSampling | WebbtrekkSDK/WebtrekkSDK/src/main/java/com/webtrekk/webtrekksdk/Webtrekk.java:313-337 | a decision cached for the configured rate is reused unchanged; otherwise it is computed afresh and stored with the rate |
| Sampling.CachedSamplingStable | WebbtrekkSDK/WebtrekkSDK/src/main/java/com/webtrekk/webtrekksdk/Webtrekk.java:313-337 | a second run with the same rate keeps the decision whatever the ever-id |
| Sampling.FreshDecision | WebbtrekkSDK/WebtrekkSDK/src/main/java/com/webtrekk/webtrekksdk/Webtrekk.java:327-336 | with nothing cached, the decision is computed from the ever-id and the rate is stored |
| Configuration.BundledText | WebbtrekkSDK/WebtrekkSDK/src/main/java/com/webtrekk/webtrekksdk/Webtrekk.java:200-214 | the test override if given; otherwise a missing resource or one under 80 characters is fatal |
| Configuration.ActiveConfiguration | WebbtrekkSDK/WebtrekkSDK/src/main/java/com/webtrekk/webtrekksdk/Webtrekk.java:222-237 | a parsed cached configuration replaces the bundled one exactly when remote configuration is enabled and its version is strictly greater |
| Configuration.CachedNotNewerIgnored | WebbtrekkSDK/WebtrekkSDK/src/main/java/com/webtrekk/webtrekksdk/Webtrekk.java:232-235 | a cached configuration of equal or lower version is ignored |
| Configuration.SelectConfiguration | WebbtrekkSDK/WebtrekkSDK/src/main/java/com/webtrekk/webtrekksdk/Webtrekk.java:194-267 | the result is valid when it succeeds; each fatal case gives its error; an invalid final configuration is fatal; a download is started exactly when remote configuration is enabled |
| Tracker.HookCalls | WebbtrekkSDK/WebtrekkSDK/src/main/java/com/webtrekk/webtrekksdk/Webtrekk.java:714-716 | one call of the hook per plugin, in order |
| Tracker.Webtrekk.constructor | WebbtrekkSDK/WebtrekkSDK/src/main/java/com/webtrekk/webtrekksdk/Webtrekk.java:48-100 | a tracker that has no context and is not initialised |
| Tracker.Webtrekk.InitTrackingConfiguration | WebbtrekkSDK/WebtrekkSDK/src/main/java/com/webtrekk/webtrekksdk/Webtrekk.java:194-267 | succeeds exactly when the selection does; an invalid configuration is still stored, as the code assigns it before validating |
| Tracker.Webtrekk.InitOptedOut | WebbtrekkSDK/WebtrekkSDK/src/main/java/com/webtrekk/webtrekksdk/Webtrekk.java:302-306 | the stored opt-out flag, false when none is stored |
| Tracker.Webtrekk.InitSampling | WebbtrekkSDK/WebtrekkSDK/src/main/java/com/webtrekk/webtrekksdk/Webtrekk.java:313-337 | the flag and the preferences become `CachedSampling` of the old preferences |
| Tracker.Webtrekk.InitInternalParameter | WebbtrekkSDK/WebtrekkSDK/src/main/java/com/webtrekk/webtrekksdk/Webtrekk.java:173-185 | force-new-session becomes "1"; first-start becomes "1" or "0" |
| Tracker.Webtrekk.InitParameters | WebbtrekkSDK/WebtrekkSDK/src/main/java/com/webtrekk/webtrekksdk/Webtrekk.java:147-152 | opt-out, sampling, internal parameters, the static webtrekk parameters (device facts, sampling rate, ever-id), automatic custom parameters and plugins, as each init step defines them |
| Tracker.Webtrekk.InitRequestUrlStore | WebbtrekkSDK/WebtrekkSDK/src/main/java/com/webtrekk/webtrekksdk/Webtrekk.java:159-160 | a capacity below 1 is fatal; otherwise a fresh empty store and empty global parameters |
| Tracker.Webtrekk.InitWebtrekk | WebbtrekkSDK/WebtrekkSDK/src/main/java/com/webtrekk/webtrekksdk/Webtrekk.java:130-167 | a second call does nothing; otherwise the configuration is selected; on failure the later steps leave their state as it was and the configuration is stored only when invalid; on success each init step is applied and the store is created, or a capacity below 1 fails leaving the global parameters |
| Tracker.Webtrekk.UpdateDynamicParameter | WebbtrekkSDK/WebtrekkSDK/src/main/java/com/webtrekk/webtrekksdk/Webtrekk.java:485-499 | orientation, connection type and queue size among the automatic custom parameters; the current resolution among the webtrekk parameters |
| Tracker.Webtrekk.ActionRequest | WebbtrekkSDK/WebtrekkSDK/src/main/java/com/webtrekk/webtrekksdk/Webtrekk.java:649-657 | the action branch builds the overlay of base layer, held device facts and the call's parameters, and changes nothing |
| Tracker.Webtrekk.AddActivityConfiguration | WebbtrekkSDK/WebtrekkSDK/src/main/java/com/webtrekk/webtrekksdk/Webtrekk.java:678-689 | adds the current activity's configured parameters, then its mapping name as activity name |
| Tracker.Webtrekk.LayeredParameter | WebbtrekkSDK/WebtrekkSDK/src/main/java/com/webtrekk/webtrekksdk/Webtrekk.java:643-692 | the overlay of the eight layers in the code's order |
| Tracker.Webtrekk.CreateTrackingRequest | WebbtrekkSDK/WebtrekkSDK/src/main/java/com/webtrekk/webtrekksdk/Webtrekk.java:641-702 | the request is `BuildRequest` of the tracker's state; only the full branch updates the dynamic parameters and the custom mapping |
| Tracker.Webtrekk.CallHooks | WebbtrekkSDK/WebtrekkSDK/src/main/java/com/webtrekk/webtrekksdk/Webtrekk.java:714-716 | appends one call of the hook per plugin, in order |
| Tracker.Webtrekk.AddRequest | WebbtrekkSDK/WebtrekkSDK/src/main/java/com/webtrekk/webtrekksdk/Webtrekk.java:711-734 | hooks before and after; the URL is enqueued exactly when neither opted out nor sampled out; then force-new-session, first-start and appUpdated become "0" |
| Tracker.Webtrekk.Track | WebbtrekkSDK/WebtrekkSDK/src/main/java/com/webtrekk/webtrekksdk/Webtrekk.java:605-632 | nothing changes when uninitialised, with no running activity or without parameters; otherwise one request is built and added |
| Tracker.Webtrekk.AutoTrackActivity | WebbtrekkSDK/WebtrekkSDK/src/main/java/com/webtrekk/webtrekksdk/Webtrekk.java:587-597 | tracks an empty request exactly when auto tracking applies to the current activity: its own flag, else the global one |
| Tracker.Webtrekk.OnSendIntervalOver | WebbtrekkSDK/WebtrekkSDK/src/main/java/com/webtrekk/webtrekksdk/Webtrekk.java:800-808 | a processor is submitted exactly when requests are queued and none is in flight; a processor in flight leaves everything unchanged |
| Tracker.Webtrekk.RequestProcessorFinished | WebbtrekkSDK/WebtrekkSDK/src/main/java/com/webtrekk/webtrekksdk/Webtrekk.java:802 | the submitted processor is done |
| Tracker.Webtrekk.StartActivity | WebbtrekkSDK/WebtrekkSDK/src/main/java/com/webtrekk/webtrekksdk/Webtrekk.java:744-765 | fails when uninitialised; otherwise counts up and sets the current activity; only the first activity loads and deletes the backup and tries a flush |
| Tracker.Webtrekk.StopActivity | WebbtrekkSDK/WebtrekkSDK/src/main/java/com/webtrekk/webtrekksdk/Webtrekk.java:771-794 | fails when uninitialised or with no running activity; otherwise counts down and clears the custom parameters; only the last one tries a flush and saves the backup |
| Tracker.Webtrekk.StopTracking | WebbtrekkSDK/WebtrekkSDK/src/main/java/com/webtrekk/webtrekksdk/Webtrekk.java:531-536 | the queue is emptied and the activity count becomes 0 |
| Tracker.Webtrekk.SetOptout | WebbtrekkSDK/WebtrekkSDK/src/main/java/com/webtrekk/webtrekksdk/Webtrekk.java:829-837 | the flag is set; the preference is written only when the flag changes; the queue is not touched |

## Left out

- I/O failures: a backup file that cannot be read or written is not modelled, so load and save always succeed. The unsupported-encoding `RuntimeException` and the logging are left out too.
- UTF-8 encoding is not modelled: the file is modelled as characters, not bytes.
- The timer service, the executor, the `RequestProcessor` and the advertiser-id thread are concurrency. They are not modelled. The timer becomes explicit calls of `OnSendIntervalOver`, and the processor's completion becomes `RequestProcessorFinished`. What the processor sends and removes from the queue is not modelled.
- `TrackingConfigurationXmlParser`, `TrackingRequest.getUrlString`, `HelperFunctions`, `TrackingParameter`'s internals and the plugin classes are not part of this model. The parser and the URL builder are function parameters, and device facts are inputs.
- `validateConfiguration` is not part of this model. `IsValidConfiguration` stands for it: a track id, a track domain and a positive send delay.
- The configuration download task runs asynchronously. Its effect is not modelled; `Selection.downloadUrl` only records the URL it is given. The code also starts the download when the final configuration then turns out invalid, and the model records the URL only on success.
- The cached configuration is assumed to parse to a configuration or not at all. The null pointer the code would raise on a `null` parse result is not modelled.
- The `Context` is not modelled:
  - `InitWebtrekk` does not model the `IllegalArgumentException` for a null context;
  - the store's null-context check is not modelled;
  - `SetOptout` does not model the null pointer it would raise before initialisation.
- `initAutoCustomParameter` is not modelled in detail. The values it collects (app version, play store profile, app update) are one input map added as a whole.
- `initPlugins` takes the plugin list from the environment and does not read the configuration's plugin flags.
- The ever-id is taken as a number. `Long.valueOf`'s parse failure and its 64-bit range are not modelled.
- `activityCount` is a mathematical integer, so Java's 32-bit overflow of `activityCount++` is not modelled.
- ActionRequest: where the tracker does not hold a resolution, depth or user agent, the key is left out of the request. The code adds it with a `null` value.
- AutoTrackActivity: requires a configuration to exist. The code would raise a null pointer before initialisation.
- The getters and setters of the tracker's fields are not modelled. Neither are `initAutoTracking` and `initTimerService`, which only register callbacks.
- The example activities that call `startActivity`, `track` and `stopActivity` are not part of this model.
- Each `RequestUrlStore` holds its own copy of the backup file. In the code every store addresses the one cache file "wt-tracking-requests" (RequestUrlStore.java:44). So after `BackupRoundTrip` the original store still has its file, although in the code the delete removes it for both.
- DeleteRequestsFile: a failed `delete()` is not modelled. The code leaves the file in place then, while the model always ends with no file.
- OnSendIntervalOver: requires a store. In the code the timer starts before the store is created, so a tick after a failed store creation would reach the null store.
- BundledText: counts characters. Java's `length()` counts UTF-16 code units, so a text with characters outside the Basic Multilingual Plane can differ in the 80-character test.
