# BigBlueButton input plugin for Telegraf — a Dafny model

This project models the counting core of the Telegraf `bigbluebutton` input
plugin, which polls a BigBlueButton web-conferencing server and reports:

- meeting counters: active meetings, participants, listeners, voice and
  video participants, and meetings being recorded;
- recording counters: all recordings and published recordings;
- an `online` flag from the server's health check.

When metadata names are configured, the plugin also counts meetings and
recordings into one bucket per metadata value.

Modules, one per source file, plus `Grouping`, which states the
per-metadata fan-out shared by the two `gather*ByMetadata` functions of
bigbluebutton.go:

- `Xml` (xml.go): `xmlToMap`, the loop that folds the token stream of a
  `<metadata>` fragment into a flat name-to-text map.
  - The tokens are an abstract datatype, and the end of the sequence stands
    for end of input.
  - The run-time panic on `values[len(values)-1]` is an explicit
    `IndexOutOfRange` outcome.
  - The result is proved equal to a step-function specification, and that
    specification is characterised without its loop state: which names are
    bound, to what text, when it panics, where it stops, and which tokens it
    ignores.
- `Api` (api.go): `MetadataStruct` with `ParseMetadata`, `ContainsMetadata`
  and `GetMetadata`, and the decoded `Meeting`, `Recording`, `HealthCheck`
  and response shapes.
- `Model` (model.go): the metric structs, their zero constructors, and
  `MeetingTotals`/`RecordingTotals`, the aggregates a list of meetings or
  recordings should produce. These are proved order-independent.
- `Records` (record.go): the nine-counter `Record` class. Its `Compute*`
  methods update the fields in place with loops proved against the
  aggregates, and `ToMap` projects it to a field map.
- `Grouping`: one generic statement of what `gatherMeetingsByMetadata` and
  `gatherRecordingsByMetadata` (bigbluebutton.go) compute. It includes a
  fold-free description of the buckets: which ones exist, and which items
  each one counts, and how often.
- `Plugin` (bigbluebutton.go): the `BigBlueButton` class.
  - `Init`, the URL builders, `toStringMapInterface` and the gather stages.
  - Each gather stage is a method with the source's loops and in-place map
    updates, proved equal to a stage function. The stage's meaning is then
    proved as lemmas.
  - A stage returns the measurements in fixed order, the per-metadata
    measurements as a set, and a status: nil, an error, or a panic.
  - A fetch is the decoded response, an error that `api` returns, or a
    panic. `api` panics on a transport error: `client.Do` then returns no
    response, and `api` reads its status code while formatting the error.

Facts about the code that the model keeps as written:

- Per-metadata buckets are kept separately for meetings, keyed
  `<value>:bigbluebutton_meetings`, and for recordings, keyed
  `<value>:bigbluebutton_recordings`. No bucket has an `online` field.
- The gather stages use the field names `active_meetings`,
  `participant_count`, `listener_count`, `voice_participant_count`,
  `video_count`, `active_recording`, `recordings_count` and
  `published_recordings_count`. `Record.ToMap` uses the nine names
  `meetings` … `online`. Both are modelled as written.
- `Record.ComputeOnlineMetric` never sets `online` back to 0, and an empty
  list leaves the matching counters of a `Record` untouched.

## Model

| member | source | states |
|---|---|---|
| Xml.XmlToMap | plugins/inputs/bigbluebutton/xml.go:9-24 | the token loop returns exactly what the step specification `Extract` gives: the map, or the index panic |
| Xml.ExtractCharacterized | plugins/inputs/bigbluebutton/xml.go:13-23 | it panics iff an EndElement comes before any text; otherwise the keys are exactly the EndElement names read before the first error, and each is bound to the last text read before its last EndElement, so the last binding wins |
| Xml.RunValues | plugins/inputs/bigbluebutton/xml.go:15-19 | the text buffer is every CharData read so far, in order: it is never cleared |
| Xml.RunCrashes | plugins/inputs/bigbluebutton/xml.go:18 | the loop panics exactly when an EndElement is read while the buffer is still empty |
| Xml.RunKeys | plugins/inputs/bigbluebutton/xml.go:17-18 | the keys are exactly the local names of the EndElements read |
| Xml.RunBinding | plugins/inputs/bigbluebutton/xml.go:18 | a name is bound to the last text read before its last EndElement |
| Xml.CrashIsFinal | plugins/inputs/bigbluebutton/xml.go:18 | once the loop has panicked, no later token changes the outcome |
| Xml.EmptyExtraction | plugins/inputs/bigbluebutton/xml.go:10-23 | an empty stream, or one whose first read is an error, gives the empty map |
| Xml.StopsAtError | plugins/inputs/bigbluebutton/xml.go:13 | decoding stops at the first error and returns the map built so far, whatever follows |
| Xml.Ignores | plugins/inputs/bigbluebutton/xml.go:14-20 | a StartElement or another kind of token anywhere in the stream changes nothing |
| Xml.InheritsEarlierText | plugins/inputs/bigbluebutton/xml.go:16-19 | an element with no text of its own gets the last earlier text, such as whitespace between elements |
| Xml.EarlyEndPanics | plugins/inputs/bigbluebutton/xml.go:18 | an EndElement before any text panics, whatever follows |
| Api.MetadataStruct.ParseMetadata | plugins/inputs/bigbluebutton/api.go:16-18 | the parsed map is replaced by xmlToMap of the raw metadata, discarding what it held; the raw metadata is kept; a panic leaves the struct as it was |
| Api.MetadataStruct.ContainsMetadata | plugins/inputs/bigbluebutton/api.go:21-24 | true iff the lookup of md in the parsed map finds a binding; its meaning before and after a parse is in UnparsedIsEmpty and ParsedLookup |
| Api.MetadataStruct.GetMetadata | plugins/inputs/bigbluebutton/api.go:27-29 | the bound value when the name is present (ContainsMetadata), Go's zero string otherwise |
| Api.UnparsedIsEmpty | plugins/inputs/bigbluebutton/api.go:21-29 | before any parse, the nil map contains no name and every lookup gives "" |
| Api.ParsedLookup | plugins/inputs/bigbluebutton/api.go:16-29 | after a parse, ContainsMetadata holds iff the name ends an element before the first error, and GetMetadata gives the last text before its last end |
| Model.NewMeetingMetric | plugins/inputs/bigbluebutton/model.go:77-86 | all six counters are 0, so it is neutral for combining aggregates |
| Model.NewMetadataMeetingMetric | plugins/inputs/bigbluebutton/model.go:89-91 | the per-metadata meetings map is empty |
| Model.NewRecordingMetric | plugins/inputs/bigbluebutton/model.go:100-105 | both counters are 0, so it is neutral for combining aggregates |
| Model.NewMetadataRecordingMetric | plugins/inputs/bigbluebutton/model.go:108-110 | the per-metadata recordings map is empty |
| Model.NewAPIStatusMetric | plugins/inputs/bigbluebutton/model.go:118-122 | online is 0 |
| Model.MeetingTotals | plugins/inputs/bigbluebutton/record.go:63-72 | the meeting count is the number of meetings, and active recordings never exceed it |
| Model.RecordingTotals | plugins/inputs/bigbluebutton/record.go:81-86 | the recording count is the number of recordings, and published ones never exceed it |
| Model.ActiveRecordingsCounted | plugins/inputs/bigbluebutton/record.go:69-71 | active recordings are the number of positions in the list that hold a meeting being recorded: all if all are, none if none is |
| Model.PublishedRecordingsCounted | plugins/inputs/bigbluebutton/record.go:83-85 | published recordings are the number of positions in the list that hold a published recording: all if all are, none if none is |
| Model.MeetingTotalsAppend | plugins/inputs/bigbluebutton/record.go:64-72 | aggregating two lists in turn combines their aggregates |
| Model.RecordingTotalsAppend | plugins/inputs/bigbluebutton/record.go:82-86 | aggregating two lists in turn combines their aggregates |
| Model.MeetingTotalsPermutation | plugins/inputs/bigbluebutton/record.go:64-72 | any permutation of the meetings has the same aggregate |
| Model.RecordingTotalsPermutation | plugins/inputs/bigbluebutton/record.go:82-86 | any permutation of the recordings has the same aggregate |
| Records.Record.NewRecord | plugins/inputs/bigbluebutton/record.go:18-30 | all nine counters are 0 |
| Records.Record.NewRecordFrom | plugins/inputs/bigbluebutton/record.go:33-40 | a fresh record: the meeting and recording counters are the aggregates of the lists (meetings = number of meetings, recordings = number of recordings, each bounded as above), and online is 1 iff the health check returned SUCCESS, else 0 |
| Records.Record.ToMap | plugins/inputs/bigbluebutton/record.go:43-55 | exactly the nine field names, each bound to its counter |
| Records.ToMapIsLossless | plugins/inputs/bigbluebutton/record.go:43-55 | two records with the same field map hold the same counters |
| Records.Record.ComputeMeetingMetrics | plugins/inputs/bigbluebutton/record.go:58-73 | an empty list changes nothing; otherwise meetings is set to the list's length and the other five meeting counters are raised by the list's aggregate; recording counters and online are untouched |
| Records.Record.ComputeRecordingMetrics | plugins/inputs/bigbluebutton/record.go:76-88 | an empty list changes nothing; otherwise recordings is set to the list's length and published recordings are raised by the number published; the other counters are untouched |
| Records.Record.ComputeOnlineMetric | plugins/inputs/bigbluebutton/record.go:91-95 | online becomes 1 on SUCCESS and otherwise keeps its value; nothing else changes |
| Grouping.FanOutAt | plugins/inputs/bigbluebutton/bigbluebutton.go:261-277 | one item fanned out: the bucket of value v exists afterwards iff it did before or some configured name binds v, and gains the item once per such name, starting from the empty template |
| Grouping.BucketsCharacterized | plugins/inputs/bigbluebutton/bigbluebutton.go:259-280 | over a whole list, the bucket of value v exists iff some item contributes to it, and holds the count of exactly those contributions in order |
| Grouping.BucketKeys | plugins/inputs/bigbluebutton/bigbluebutton.go:265 | every bucket key is a metadata value followed by the suffix |
| Grouping.NoNamesNoBuckets | plugins/inputs/bigbluebutton/bigbluebutton.go:282-284 | with no configured names there are no buckets |
| Grouping.FanOutUnmatched | plugins/inputs/bigbluebutton/bigbluebutton.go:264 | an item whose metadata holds none of the configured names leaves every bucket as it was |
| Grouping.UnmatchedItemGroupsNothing | plugins/inputs/bigbluebutton/bigbluebutton.go:218-233 | such an item only counts in the global record: adding it to the list changes no bucket |
| Plugin.EmptyMeetingsMap | plugins/inputs/bigbluebutton/bigbluebutton.go:309-318 | exactly the six meeting field names, all 0 |
| Plugin.EmptyRecordingsMap | plugins/inputs/bigbluebutton/bigbluebutton.go:320-325 | exactly the two recording field names, both 0 |
| Plugin.MeetingTally | plugins/inputs/bigbluebutton/bigbluebutton.go:219-228 | the in-place increments of the meetings loop, started from the empty map, give the fields of the meetings' aggregate |
| Plugin.RecordingTally | plugins/inputs/bigbluebutton/bigbluebutton.go:348-353 | the in-place increments of the recordings loop, started from the empty map, give the fields of the recordings' aggregate |
| Plugin.ToStringMapInterface | plugins/inputs/bigbluebutton/bigbluebutton.go:365-371 | the copy has the same keys, each value boxed |
| Plugin.BoxedIsLossless | plugins/inputs/bigbluebutton/bigbluebutton.go:365-371 | boxing loses nothing: equal boxed copies come from equal field maps |
| Plugin.MetadataMeasurements | plugins/inputs/bigbluebutton/bigbluebutton.go:286-290 | one measurement per bucket, named by its key and holding its boxed fields, and nothing else |
| Plugin.BigBlueButton.constructor | plugins/inputs/bigbluebutton/bigbluebutton.go:21-35 | the configured fields as given, the derived URLs still empty |
| Plugin.BigBlueButton.GetURL | plugins/inputs/bigbluebutton/bigbluebutton.go:135-138 | the health-check URL, "/", the call name, then "?checksum=" and the hex digest of the call name followed by the secret key |
| Plugin.BigBlueButton.ShouldGatherByMetadata | plugins/inputs/bigbluebutton/bigbluebutton.go:282-284 | true iff some metadata name is configured; with none, no stage emits a per-metadata measurement (NoNamesNoGroups) |
| Plugin.BigBlueButton.GetHealthCheckURL | plugins/inputs/bigbluebutton/bigbluebutton.go:140-143 | the server URL, then the path prefix, then "/api" |
| Plugin.BigBlueButton.Init | plugins/inputs/bigbluebutton/bigbluebutton.go:70-81 | an empty secret key fails with "BigBlueButton secret key is required" and changes nothing; otherwise the path prefix defaults to "/bigbluebutton" and the three URLs are set from getURL and getHealthCheckURL; the configuration is kept |
| Plugin.BigBlueButton.Gather | plugins/inputs/bigbluebutton/bigbluebutton.go:116-126 | meetings, then recordings, then API status, stopping at the first stage that does not return nil, whose status is returned |
| Plugin.BigBlueButton.GatherAPIStatus | plugins/inputs/bigbluebutton/bigbluebutton.go:172-196 | the method does what the API stage specifies (see APIStageOnline) |
| Plugin.APIStageOnline | plugins/inputs/bigbluebutton/bigbluebutton.go:172-196 | unless `api` panics, exactly one online record: online is 1 iff the health check was fetched and answered SUCCESS, else 0, and the stage fails iff `api` returned an error; a panic emits nothing |
| Plugin.TransportErrorPanics | plugins/inputs/bigbluebutton/bigbluebutton.go:156-160 | a transport error panics in each of the three stages, which then emits nothing |
| Plugin.BigBlueButton.GatherMeetings | plugins/inputs/bigbluebutton/bigbluebutton.go:198-238 | the loop, with its in-place increments and per-metadata fan-out, does what the meetings stage specifies: a panic in `api` panics, a fetch error is returned, "noMeetings" gives one zero record, a panicking metadata panics, else the global record and the buckets |
| Plugin.BigBlueButton.GatherMeetingsByMetadata | plugins/inputs/bigbluebutton/bigbluebutton.go:259-280 | the loop over the configured names updates the buckets as one fan-out of the meeting (see FanOutAt) |
| Plugin.BigBlueButton.GatherRecordings | plugins/inputs/bigbluebutton/bigbluebutton.go:327-363 | the loop does what the recordings stage specifies: a panic in `api` panics, a fetch error is returned, "noRecordings" gives one zero record, a panicking metadata panics, else the global record and the buckets |
| Plugin.BigBlueButton.GatherRecordingsByMetadata | plugins/inputs/bigbluebutton/bigbluebutton.go:240-257 | the loop over the configured names updates the buckets as one fan-out of the recording (see FanOutAt) |
| Plugin.MeetingsStageCounts | plugins/inputs/bigbluebutton/bigbluebutton.go:210-233 | one global record with the six fields: active_meetings is the number of meetings, active_recording the number being recorded, and the whole record is the aggregate of any permutation of the meetings |
| Plugin.RecordingsStageCounts | plugins/inputs/bigbluebutton/bigbluebutton.go:339-360 | one global record with the two fields: recordings_count is the number of recordings, published_recordings_count the number published, and the record is the aggregate of any permutation |
| Plugin.NoMeetingsStage | plugins/inputs/bigbluebutton/bigbluebutton.go:213-216 | "noMeetings" gives one all-zero bigbluebutton_meetings record and no groups, without looking at the meetings |
| Plugin.NoRecordingsStage | plugins/inputs/bigbluebutton/bigbluebutton.go:342-345 | "noRecordings" gives one all-zero bigbluebutton_recordings record and no groups |
| Plugin.NoNamesNoGroups | plugins/inputs/bigbluebutton/bigbluebutton.go:282-284 | with no configured metadata names neither stage emits a per-metadata measurement |
| Plugin.GroupedMeetings | plugins/inputs/bigbluebutton/bigbluebutton.go:259-280 | every grouped measurement is named value + ":bigbluebutton_meetings"; one named for v exists iff some meeting binds a configured name to v, and it holds the aggregate of those meetings, each once per such name |
| Plugin.GroupedRecordings | plugins/inputs/bigbluebutton/bigbluebutton.go:240-257 | the same for recordings and ":bigbluebutton_recordings" |
| Plugin.DuplicateNameCountsTwice | plugins/inputs/bigbluebutton/bigbluebutton.go:261-265 | with a name configured twice, one meeting tagged with it is counted twice into its bucket, because the key holds only the value |

## Left out

- The HTTP call (`api`), basic authentication, and the TLS and proxy client built by `Init`. These are network I/O. Each fetch is an input instead: the decoded response, an error that `api` returns (building the request, a status other than 200, reading the body) or that unmarshalling returns, or the panic of bigbluebutton.go:158-159, where a transport error leaves `resp` nil and the error message reads `resp.StatusCode`. The error texts themselves are not modelled.
- Plugin.BigBlueButton.Init: the TLS-configuration and proxy errors that can follow the URL assignment are not modelled, so a non-empty secret key always succeeds.
- The SHA-1 checksum: `getURL` takes the hex digest function as a parameter.
- `xml.Unmarshal` of the response envelopes and the `xml.Decoder` tokenizer are library code. Decoded values and an abstract token sequence are inputs instead, and the raw `<metadata>` bytes are their token sequence.
- The Telegraf accumulator, the `time.Unix(0, 0)` timestamps, the empty tag maps, `init` registration, `SampleConfig` and `Description`. Emission is the stage's list of measurements.
- The order in which `addMetadataRecordingsToAcc` emits the per-metadata measurements follows Go map iteration, which is unspecified, so they form a set.
- Go `uint64` wrap-around on `+=` and `++`: every counter is an unbounded natural number.
- Api.MetadataStruct.ParseMetadata: it returns the updated struct instead of assigning through a pointer, because `MetadataStruct` is embedded by value in `Meeting` and `Recording`, which the gather loops copy.
- The XML shapes that model.go declares again (`Meeting`, `Recording`, `Meetings`, `Recordings`, `MeetingsResponse`, `RecordingsResponse`, `HealthCheck` and `Metadata`), whose `Meeting` and `Recording` hold `Metadata` and `ParsedMetadata` as plain fields instead of embedding `MetadataStruct`. The gather code reads the same two fields under either declaration, and only the api.go shapes are modelled.
- The second, identical copy of `xmlToMap` in bigbluebutton.go is the one in xml.go.
- bigbluebutton_test.go is not part of this model: it drives a mock HTTP server.
