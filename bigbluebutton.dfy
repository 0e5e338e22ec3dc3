/** The gathering core of plugins/inputs/bigbluebutton/bigbluebutton.go.

    The HTTP call, the XML unmarshalling of the response envelopes and the
    telegraf accumulator are left abstract: each fetch is given as its
    outcome (the decoded envelope or the error), and each gather stage
    returns the measurements it hands to the accumulator. */
module Plugin {
  import opened Xml
  import opened Api
  import opened Model
  import opened Grouping

  /** A field value as the accumulator receives it (an interface{} holding a uint64). */
  datatype FieldValue = Uint64(value: nat)

  /** One call of `acc.AddFields`: a measurement name and its fields. */
  datatype Measurement = Measurement(name: string, fields: map<string, FieldValue>)

  /** What a stage returns: nil, an error, or a run-time panic (in `api` or xmlToMap). */
  datatype Status = Ok | Failed(error: string) | Panicked

  /** The outcome of an API call followed by `xml.Unmarshal`: the decoded
      response, an error that `api` or the decoder returns (building the
      request, a status other than 200, reading the body, unmarshalling),
      or a transport error. On a transport error `client.Do` returns no
      response, and `api` panics reading its status code while formatting
      the error. */
  datatype Fetch<T> = Fetched(value: T) | FetchFailed(error: string) | FetchPanicked

  /** What one gather stage does: the measurements it adds in a fixed order,
      the per-metadata measurements it adds afterwards in map order (so as a
      set), and what it returns. */
  datatype Stage = Stage(emitted: seq<Measurement>, grouped: set<Measurement>, status: Status)

  const DefaultPathPrefix := "/bigbluebutton"
  const MeetingsMeasurement := "bigbluebutton_meetings"
  const RecordingsMeasurement := "bigbluebutton_recordings"
  const APIMeasurement := "bigbluebutton_api"
  const MeetingsSuffix := ":bigbluebutton_meetings"
  const RecordingsSuffix := ":bigbluebutton_recordings"
  const SecretKeyRequired := "BigBlueButton secret key is required"

  const MeetingFieldNames: set<string> := {
    "active_meetings", "active_recording", "listener_count",
    "participant_count", "video_count", "voice_participant_count"}
  const RecordingFieldNames: set<string> := {"recordings_count", "published_recordings_count"}

  // ---------------------------------------------------------------------
  // Field maps.

  /** emptyMeetingsMap: the six meeting fields, all 0. */
  function EmptyMeetingsMap(): (r: map<string, nat>)
    ensures r.Keys == MeetingFieldNames
    ensures forall k :: k in r ==> r[k] == 0
  {
    map k | k in MeetingFieldNames :: 0
  }

  /** emptyRecordingsMap: the two recording fields, both 0. */
  function EmptyRecordingsMap(): (r: map<string, nat>)
    ensures r.Keys == RecordingFieldNames
    ensures forall k :: k in r ==> r[k] == 0
  {
    map k | k in RecordingFieldNames :: 0
  }

  /** `fields[name] += delta`, where a missing field reads as 0. */
  function Inc(fields: map<string, nat>, name: string, delta: nat): map<string, nat>
  {
    fields[name := (if name in fields then fields[name] else 0) + delta]
  }

  /** The meeting fields of a meetings aggregate. */
  function MeetingFields(t: MeetingsMetric): map<string, nat>
  {
    map[
      "active_meetings" := t.meetings,
      "participant_count" := t.participants,
      "listener_count" := t.listenerParticipants,
      "voice_participant_count" := t.voiceParticipants,
      "video_count" := t.videoParticipants,
      "active_recording" := t.activeRecordings]
  }

  /** The recording fields of a recordings aggregate. */
  function RecordingFields(t: RecordingsMetric): map<string, nat>
  {
    map["recordings_count" := t.recordings, "published_recordings_count" := t.publishedRecordings]
  }

  /** What counting one meeting does to a meeting field map. */
  function CountMeeting(fields: map<string, nat>, m: Meeting): map<string, nat>
  {
    var a := Inc(fields, "active_meetings", 1);
    var p := Inc(a, "participant_count", m.participantCount);
    var l := Inc(p, "listener_count", m.listenerCount);
    var v := Inc(l, "voice_participant_count", m.voiceParticipantCount);
    var d := Inc(v, "video_count", m.videoCount);
    if m.recording then Inc(d, "active_recording", 1) else d
  }

  /** What counting one recording does to a recording field map. */
  function CountRecording(fields: map<string, nat>, r: Recording): map<string, nat>
  {
    var c := Inc(fields, "recordings_count", 1);
    if r.published then Inc(c, "published_recordings_count", 1) else c
  }

  /** Counting meetings into the empty meetings map yields their aggregate. */
  lemma {:induction false} MeetingTally(ms: seq<Meeting>)
    ensures Tally(CountMeeting, EmptyMeetingsMap(), ms) == MeetingFields(MeetingTotals(ms))
  {
    if ms == [] {
      assert EmptyMeetingsMap() == MeetingFields(NewMeetingMetric());
    } else {
      MeetingTally(ms[..|ms| - 1]);
      CountMeetingStep(MeetingTotals(ms[..|ms| - 1]), ms[|ms| - 1]);
    }
  }

  /** Counting one meeting into the fields of an aggregate gives the fields
      of the aggregate with that meeting added. */
  lemma CountMeetingStep(t: MeetingsMetric, m: Meeting)
    ensures CountMeeting(MeetingFields(t), m) == MeetingFields(AddMeeting(t, m))
  {
  }

  /** Counting recordings into the empty recordings map yields their aggregate. */
  lemma {:induction false} RecordingTally(rs: seq<Recording>)
    ensures Tally(CountRecording, EmptyRecordingsMap(), rs) == RecordingFields(RecordingTotals(rs))
  {
    if rs == [] {
      assert EmptyRecordingsMap() == RecordingFields(NewRecordingMetric());
    } else {
      RecordingTally(rs[..|rs| - 1]);
      CountRecordingStep(RecordingTotals(rs[..|rs| - 1]), rs[|rs| - 1]);
    }
  }

  /** Counting one recording into the fields of an aggregate gives the fields
      of the aggregate with that recording added. */
  lemma CountRecordingStep(t: RecordingsMetric, r: Recording)
    ensures CountRecording(RecordingFields(t), r) == RecordingFields(AddRecording(t, r))
  {
  }

  /** toStringMapInterface's result: the same keys, each value boxed. */
  function Boxed(fields: map<string, nat>): (r: map<string, FieldValue>)
    ensures r.Keys == fields.Keys
    ensures forall k :: k in r ==> r[k] == Uint64(fields[k])
  {
    map k | k in fields :: Uint64(fields[k])
  }

  /** toStringMapInterface: copies a field map entry by entry. */
  method ToStringMapInterface(fields: map<string, nat>) returns (m: map<string, FieldValue>)
    ensures m == Boxed(fields)
  {
    m := map[];
    var rest := fields.Keys;
    while rest != {}
      invariant rest <= fields.Keys
      invariant m.Keys == fields.Keys - rest
      invariant forall k :: k in m ==> m[k] == Uint64(fields[k])
      decreases rest
    {
      var k :| k in rest;
      m := m[k := Uint64(fields[k])];
      rest := rest - {k};
    }
    assert m.Keys == Boxed(fields).Keys;
  }

  /** Boxing loses nothing: a field map can be read back from its boxed copy. */
  lemma BoxedIsLossless(a: map<string, nat>, b: map<string, nat>)
    requires Boxed(a) == Boxed(b)
    ensures a == b
  {
    assert a.Keys == Boxed(a).Keys;
    forall k | k in a ensures a[k] == b[k] {
      assert Boxed(a)[k].value == a[k];
    }
  }

  /** addMetadataRecordingsToAcc: one measurement per bucket, named by its key. */
  function MetadataMeasurements(records: Buckets): (r: set<Measurement>)
    ensures forall x :: x in r <==> x.name in records && x.fields == Boxed(records[x.name])
  {
    set k | k in records :: Measurement(k, Boxed(records[k]))
  }

  // ---------------------------------------------------------------------
  // What each stage should do.

  /** The parsed metadata the gather loops give a meeting. */
  function MeetingMetadata(m: Meeting): map<string, string>
  {
    BindingsOf(Extract(m.meta.metadata))
  }

  /** The parsed metadata the gather loops give a recording. */
  function RecordingMetadata(r: Recording): map<string, string>
  {
    BindingsOf(Extract(r.meta.metadata))
  }

  /** xmlToMap reads the raw metadata without panicking. */
  predicate Parses(meta: MetadataStruct)
  {
    Extract(meta.metadata).Extracted?
  }

  /** Some meeting's metadata makes xmlToMap panic. */
  predicate MeetingMetadataPanics(ms: seq<Meeting>)
  {
    exists i :: 0 <= i < |ms| && !Parses(ms[i].meta)
  }

  /** Some recording's metadata makes xmlToMap panic. */
  predicate RecordingMetadataPanics(rs: seq<Recording>)
  {
    exists i :: 0 <= i < |rs| && !Parses(rs[i].meta)
  }

  /** The per-metadata meeting buckets for the configured names. */
  function MeetingBuckets(names: seq<string>, ms: seq<Meeting>): Buckets
  {
    AllBuckets(names, ms, MeetingMetadata, MeetingsSuffix, CountMeeting, EmptyMeetingsMap())
  }

  /** The per-metadata recording buckets for the configured names. */
  function RecordingBuckets(names: seq<string>, rs: seq<Recording>): Buckets
  {
    AllBuckets(names, rs, RecordingMetadata, RecordingsSuffix, CountRecording, EmptyRecordingsMap())
  }

  /** gatherMeetings, as a value. */
  function MeetingsStage(names: seq<string>, response: Fetch<MeetingsResponse>): Stage
  {
    match response
    case FetchFailed(e) => Stage([], {}, Failed(e))
    case FetchPanicked => Stage([], {}, Panicked)
    case Fetched(resp) =>
      if resp.messageKey == "noMeetings" then
        Stage([Measurement(MeetingsMeasurement, Boxed(EmptyMeetingsMap()))], {}, Ok)
      else if MeetingMetadataPanics(resp.meetings) then
        Stage([], {}, Panicked)
      else
        Stage([Measurement(MeetingsMeasurement, Boxed(MeetingFields(MeetingTotals(resp.meetings))))],
              MetadataMeasurements(MeetingBuckets(names, resp.meetings)), Ok)
  }

  /** gatherRecordings, as a value. */
  function RecordingsStage(names: seq<string>, response: Fetch<RecordingsResponse>): Stage
  {
    match response
    case FetchFailed(e) => Stage([], {}, Failed(e))
    case FetchPanicked => Stage([], {}, Panicked)
    case Fetched(resp) =>
      if resp.messageKey == "noRecordings" then
        Stage([Measurement(RecordingsMeasurement, Boxed(EmptyRecordingsMap()))], {}, Ok)
      else if RecordingMetadataPanics(resp.recordings) then
        Stage([], {}, Panicked)
      else
        Stage([Measurement(RecordingsMeasurement, Boxed(RecordingFields(RecordingTotals(resp.recordings))))],
              MetadataMeasurements(RecordingBuckets(names, resp.recordings)), Ok)
  }

  /** gatherAPIStatus, as a value: the online record is added whatever error
      `api` returns, but not when it panics. */
  function APIStage(response: Fetch<HealthCheck>): Stage
  {
    match response
    case FetchFailed(e) => Stage([Measurement(APIMeasurement, Boxed(map["online" := 0]))], {}, Failed(e))
    case FetchPanicked => Stage([], {}, Panicked)
    case Fetched(h) =>
      var online := if h.returnCode == "SUCCESS" then 1 else 0;
      Stage([Measurement(APIMeasurement, Boxed(map["online" := online]))], {}, Ok)
  }

  /** Counting a meeting does not look at its metadata. */
  lemma CountMeetingIgnoresMetadata(m: Meeting, meta: MetadataStruct)
    ensures forall f :: CountMeeting(f, m.(meta := meta)) == CountMeeting(f, m)
  {
  }

  /** Counting a recording does not look at its metadata. */
  lemma CountRecordingIgnoresMetadata(r: Recording, meta: MetadataStruct)
    ensures forall f :: CountRecording(f, r.(meta := meta)) == CountRecording(f, r)
  {
  }

  /** No panic in a longer prefix: none in the shorter one, none at the new item. */
  lemma NoMeetingPanicStep(ms: seq<Meeting>, i: nat)
    requires i < |ms| && !MeetingMetadataPanics(ms[..i]) && Parses(ms[i].meta)
    ensures !MeetingMetadataPanics(ms[..i + 1])
  {
    assert forall j :: 0 <= j < i ==> ms[..i + 1][j] == ms[..i][j];
  }

  /** No panic in a longer prefix: none in the shorter one, none at the new item. */
  lemma NoRecordingPanicStep(rs: seq<Recording>, i: nat)
    requires i < |rs| && !RecordingMetadataPanics(rs[..i]) && Parses(rs[i].meta)
    ensures !RecordingMetadataPanics(rs[..i + 1])
  {
    assert forall j :: 0 <= j < i ==> rs[..i + 1][j] == rs[..i][j];
  }

  /** The buckets after one more meeting: that meeting fanned out over them. */
  lemma MeetingBucketsStep(names: seq<string>, ms: seq<Meeting>, i: nat)
    requires i < |ms|
    ensures MeetingBuckets(names, ms[..i + 1])
      == FanOut(MeetingBuckets(names, ms[..i]), names, MeetingMetadata(ms[i]), MeetingsSuffix, ms[i], CountMeeting, EmptyMeetingsMap())
  {
    assert ms[..i + 1][..i] == ms[..i];
  }

  /** The buckets after one more recording: that recording fanned out over them. */
  lemma RecordingBucketsStep(names: seq<string>, rs: seq<Recording>, i: nat)
    requires i < |rs|
    ensures RecordingBuckets(names, rs[..i + 1])
      == FanOut(RecordingBuckets(names, rs[..i]), names, RecordingMetadata(rs[i]), RecordingsSuffix, rs[i], CountRecording, EmptyRecordingsMap())
  {
    assert rs[..i + 1][..i] == rs[..i];
  }

  // ---------------------------------------------------------------------
  // What the stages mean.

  /** A successful meetings stage emits one record: one active meeting per
      meeting, the summed counters, one active recording per recorded
      meeting, whatever the order of the meetings. */
  lemma {:induction false} MeetingsStageCounts(names: seq<string>, resp: MeetingsResponse, reordered: seq<Meeting>)
    requires resp.messageKey != "noMeetings" && !MeetingMetadataPanics(resp.meetings)
    requires multiset(reordered) == multiset(resp.meetings)
    ensures var s := MeetingsStage(names, Fetched(resp));
      && s.status == Ok && |s.emitted| == 1
      && s.emitted[0].name == MeetingsMeasurement
      && s.emitted[0].fields.Keys == MeetingFieldNames
      && s.emitted[0].fields["active_meetings"] == Uint64(|resp.meetings|)
      && s.emitted[0].fields["active_recording"] == Uint64(RecordingCount(resp.meetings))
      && s.emitted[0].fields == Boxed(MeetingFields(MeetingTotals(reordered)))
  {
    ActiveRecordingsCounted(resp.meetings);
    MeetingTotalsPermutation(reordered, resp.meetings);
  }

  /** A successful recordings stage emits one record: one per recording and
      one published per published recording, whatever their order. */
  lemma {:induction false} RecordingsStageCounts(names: seq<string>, resp: RecordingsResponse, reordered: seq<Recording>)
    requires resp.messageKey != "noRecordings" && !RecordingMetadataPanics(resp.recordings)
    requires multiset(reordered) == multiset(resp.recordings)
    ensures var s := RecordingsStage(names, Fetched(resp));
      && s.status == Ok && |s.emitted| == 1
      && s.emitted[0].name == RecordingsMeasurement
      && s.emitted[0].fields.Keys == RecordingFieldNames
      && s.emitted[0].fields["recordings_count"] == Uint64(|resp.recordings|)
      && s.emitted[0].fields["published_recordings_count"] == Uint64(PublishedCount(resp.recordings))
      && s.emitted[0].fields == Boxed(RecordingFields(RecordingTotals(reordered)))
  {
    PublishedRecordingsCounted(resp.recordings);
    RecordingTotalsPermutation(reordered, resp.recordings);
  }

  /** "noMeetings" short-cuts everything, even metadata that would panic:
      one all-zero record, no groups. */
  lemma NoMeetingsStage(names: seq<string>, resp: MeetingsResponse)
    requires resp.messageKey == "noMeetings"
    ensures var s := MeetingsStage(names, Fetched(resp));
      && s.status == Ok && s.grouped == {} && |s.emitted| == 1
      && s.emitted[0].name == MeetingsMeasurement
      && s.emitted[0].fields == Boxed(MeetingFields(NewMeetingMetric()))
  {
    assert EmptyMeetingsMap() == MeetingFields(NewMeetingMetric());
  }

  /** "noRecordings" short-cuts everything: one all-zero record, no groups. */
  lemma NoRecordingsStage(names: seq<string>, resp: RecordingsResponse)
    requires resp.messageKey == "noRecordings"
    ensures var s := RecordingsStage(names, Fetched(resp));
      && s.status == Ok && s.grouped == {} && |s.emitted| == 1
      && s.emitted[0].name == RecordingsMeasurement
      && s.emitted[0].fields == Boxed(RecordingFields(NewRecordingMetric()))
  {
    assert EmptyRecordingsMap() == RecordingFields(NewRecordingMetric());
  }

  /** With no metadata names configured, no stage groups anything. */
  lemma NoNamesNoGroups(resp: MeetingsResponse, rresp: RecordingsResponse)
    ensures MeetingsStage([], Fetched(resp)).grouped == {}
    ensures RecordingsStage([], Fetched(rresp)).grouped == {}
  {
    NoNamesNoBuckets(resp.meetings, MeetingMetadata, MeetingsSuffix, CountMeeting, EmptyMeetingsMap());
    NoNamesNoBuckets(rresp.recordings, RecordingMetadata, RecordingsSuffix, CountRecording, EmptyRecordingsMap());
  }

  /** The grouped meeting measurements, described without the fold: there is
      one named v + ":bigbluebutton_meetings" exactly when some meeting binds
      a configured name to v, and it holds the aggregate of those meetings,
      each counted once per configured name that binds it to v. Every
      grouped measurement is named this way. */
  lemma GroupedMeetings(names: seq<string>, resp: MeetingsResponse, v: string)
    requires resp.messageKey != "noMeetings" && !MeetingMetadataPanics(resp.meetings)
    ensures var s := MeetingsStage(names, Fetched(resp));
      var c := Contributions(names, resp.meetings, MeetingMetadata, v);
      && (forall x :: x in s.grouped ==> |x.name| >= |MeetingsSuffix| && x.name == x.name[..|x.name| - |MeetingsSuffix|] + MeetingsSuffix)
      && (forall x :: x in s.grouped && x.name == v + MeetingsSuffix ==> x.fields == Boxed(MeetingFields(MeetingTotals(c))))
      && (|c| > 0 <==> exists x :: x in s.grouped && x.name == v + MeetingsSuffix)
  {
    var ms := resp.meetings;
    var b := MeetingBuckets(names, ms);
    var c := Contributions(names, ms, MeetingMetadata, v);
    BucketsCharacterized(names, ms, MeetingMetadata, MeetingsSuffix, CountMeeting, EmptyMeetingsMap(), v);
    BucketKeys(names, ms, MeetingMetadata, MeetingsSuffix, CountMeeting, EmptyMeetingsMap());
    MeetingTally(c);
    if |c| > 0 {
      assert Measurement(v + MeetingsSuffix, Boxed(b[v + MeetingsSuffix])) in MetadataMeasurements(b);
    }
  }

  /** The grouped recording measurements, described without the fold. */
  lemma GroupedRecordings(names: seq<string>, resp: RecordingsResponse, v: string)
    requires resp.messageKey != "noRecordings" && !RecordingMetadataPanics(resp.recordings)
    ensures var s := RecordingsStage(names, Fetched(resp));
      var c := Contributions(names, resp.recordings, RecordingMetadata, v);
      && (forall x :: x in s.grouped ==> |x.name| >= |RecordingsSuffix| && x.name == x.name[..|x.name| - |RecordingsSuffix|] + RecordingsSuffix)
      && (forall x :: x in s.grouped && x.name == v + RecordingsSuffix ==> x.fields == Boxed(RecordingFields(RecordingTotals(c))))
      && (|c| > 0 <==> exists x :: x in s.grouped && x.name == v + RecordingsSuffix)
  {
    var rs := resp.recordings;
    var b := RecordingBuckets(names, rs);
    var c := Contributions(names, rs, RecordingMetadata, v);
    BucketsCharacterized(names, rs, RecordingMetadata, RecordingsSuffix, CountRecording, EmptyRecordingsMap(), v);
    BucketKeys(names, rs, RecordingMetadata, RecordingsSuffix, CountRecording, EmptyRecordingsMap());
    RecordingTally(c);
    if |c| > 0 {
      assert Measurement(v + RecordingsSuffix, Boxed(b[v + RecordingsSuffix])) in MetadataMeasurements(b);
    }
  }

  /** Unless `api` panics, the API stage emits exactly one online record,
      whose value is 1 exactly when the health check was fetched and
      answered "SUCCESS"; its status is an error exactly when the fetch
      failed. A panic emits nothing. */
  lemma APIStageOnline(response: Fetch<HealthCheck>)
    ensures var s := APIStage(response);
      && (s.status == Panicked <==> response.FetchPanicked?)
      && (s.emitted == [] <==> response.FetchPanicked?)
      && (s.status.Failed? <==> response.FetchFailed?)
    ensures var s := APIStage(response);
      !response.FetchPanicked? ==>
        && |s.emitted| == 1 && s.emitted[0].name == APIMeasurement
        && s.emitted[0].fields.Keys == {"online"}
        && (s.emitted[0].fields["online"] == Uint64(1) <==> response.Fetched? && response.value.returnCode == "SUCCESS")
        && (s.emitted[0].fields["online"] == Uint64(0) <==> response.FetchFailed? || response.value.returnCode != "SUCCESS")
  {
  }

  /** A transport error panics in whichever stage meets it: nothing is
      emitted, and Gather stops there. */
  lemma TransportErrorPanics(names: seq<string>)
    ensures MeetingsStage(names, FetchPanicked) == Stage([], {}, Panicked)
    ensures RecordingsStage(names, FetchPanicked) == Stage([], {}, Panicked)
    ensures APIStage(FetchPanicked) == Stage([], {}, Panicked)
  {
  }

  /** Fan-out is per configured name and the key holds only the value: with
      the name "tenant" configured twice, one meeting tagged tenant "acme"
      is counted twice into the "acme" bucket. */
  /** The metadata `<tenant>acme</tenant>` binds tenant to "acme". */
  lemma TenantAcme(ts: seq<Token>)
    requires ts == [StartElement("tenant"), CharData("acme"), EndElement("tenant")]
    ensures Extract(ts) == Extracted(map["tenant" := "acme"])
  {
    NoErrorReadToEnd(ts);
    RunSnoc([], ts[0]);
    assert [] + [ts[0]] == ts[..1];
    RunSnoc(ts[..1], ts[1]);
    assert ts[..1] + [ts[1]] == ts[..2];
    RunSnoc(ts[..2], ts[2]);
    assert ts[..2] + [ts[2]] == ts;
  }

  lemma DuplicateNameCountsTwice(m: Meeting)
    requires m.meta.metadata == [StartElement("tenant"), CharData("acme"), EndElement("tenant")]
    ensures var s := MeetingsStage(["tenant", "tenant"], Fetched(MeetingsResponse("SUCCESS", "", [m])));
      Measurement("acme" + MeetingsSuffix, Boxed(MeetingFields(MeetingTotals([m, m])))) in s.grouped
  {
    var names := ["tenant", "tenant"];
    var resp := MeetingsResponse("SUCCESS", "", [m]);
    TenantAcme(m.meta.metadata);
    assert MeetingMetadata(m) == map["tenant" := "acme"];
    assert !MeetingMetadataPanics(resp.meetings);
    assert Hits(names, MeetingMetadata(m), "acme") == 2 by {
      assert names[..1] == ["tenant"];
      assert names[..1][..0] == [];
    }
    assert Contributions(names, [m], MeetingMetadata, "acme") == [m, m] by {
      assert [m][..0] == [];
      assert Repeat(m, 2) == [m, m];
    }
    GroupedMeetings(names, resp, "acme");
  }

  // ---------------------------------------------------------------------
  // The plugin.

  /** BigBlueButton: the plugin configuration and the URLs Init derives from it. */
  class BigBlueButton {
    var url: string
    var pathPrefix: string
    var secretKey: string
    var username: string
    var password: string
    var gatherByMetadata: seq<string>
    var getMeetingsURL: string
    var getRecordingsURL: string
    var healthCheckURL: string

    /** A plugin as the configuration loader leaves it: the URLs still empty. */
    constructor (url: string, pathPrefix: string, secretKey: string, username: string, password: string, gatherByMetadata: seq<string>)
      ensures this.url == url && this.pathPrefix == pathPrefix && this.secretKey == secretKey
      ensures this.username == username && this.password == password
      ensures this.gatherByMetadata == gatherByMetadata
      ensures getMeetingsURL == getRecordingsURL == healthCheckURL == ""
    {
      this.url := url;
      this.pathPrefix := pathPrefix;
      this.secretKey := secretKey;
      this.username := username;
      this.password := password;
      this.gatherByMetadata := gatherByMetadata;
      getMeetingsURL, getRecordingsURL, healthCheckURL := "", "", "";
    }

    /** getURL: the API call URL, authenticated by the hex SHA-1 of the call
        name followed by the secret key. `sha1Hex` stands for that digest. */
    function GetURL(apiCallName: string, sha1Hex: string -> string): (r: string)
      reads this
      ensures r == GetHealthCheckURL() + "/" + apiCallName + "?checksum=" + sha1Hex(apiCallName + secretKey)
    {
      url + (pathPrefix + "/api/" + apiCallName) + "?checksum=" + sha1Hex(apiCallName + secretKey)
    }

    /** getHealthCheckURL: the server URL, the path prefix, then "/api". */
    function GetHealthCheckURL(): (r: string)
      reads this
      ensures |r| == |url| + |pathPrefix| + 4
      ensures r[..|url|] == url && r[|url|..|url| + |pathPrefix|] == pathPrefix
      ensures r[|r| - 4..] == "/api"
    {
      url + (pathPrefix + "/api")
    }

    /** shouldGatherByMetadata: some metadata name is configured. */
    predicate ShouldGatherByMetadata(): (b: bool)
      reads this
      ensures b <==> exists name :: name in gatherByMetadata
    {
      assert |gatherByMetadata| > 0 ==> gatherByMetadata[0] in gatherByMetadata;
      |gatherByMetadata| > 0
    }

    /** Init: fails, changing nothing, when no secret key is set; otherwise
        defaults the path prefix and precomputes the three URLs. */
    method Init(sha1Hex: string -> string) returns (err: Status)
      modifies this
      ensures old(secretKey) == "" ==> err == Failed(SecretKeyRequired) && unchanged(this)
      ensures old(secretKey) != "" ==> err == Ok
      ensures old(secretKey) != "" ==>
        && pathPrefix == (if old(pathPrefix) == "" then DefaultPathPrefix else old(pathPrefix))
        && getMeetingsURL == GetURL("getMeetings", sha1Hex)
        && getRecordingsURL == GetURL("getRecordings", sha1Hex)
        && healthCheckURL == GetHealthCheckURL()
      ensures url == old(url) && secretKey == old(secretKey) && gatherByMetadata == old(gatherByMetadata)
      ensures username == old(username) && password == old(password)
    {
      if secretKey == "" {
        return Failed(SecretKeyRequired);
      }
      if pathPrefix == "" {
        pathPrefix := DefaultPathPrefix;
      }
      getMeetingsURL := GetURL("getMeetings", sha1Hex);
      getRecordingsURL := GetURL("getRecordings", sha1Hex);
      healthCheckURL := GetHealthCheckURL();
      return Ok;
    }

    /** Gather: meetings, then recordings, then the API status, stopping at
        the first stage that does not return nil. */
    method Gather(meetings: Fetch<MeetingsResponse>, recordings: Fetch<RecordingsResponse>, health: Fetch<HealthCheck>)
      returns (stages: seq<Stage>, status: Status)
      ensures 1 <= |stages| <= 3
      ensures stages[0] == MeetingsStage(gatherByMetadata, meetings)
      ensures |stages| > 1 <==> stages[0].status == Ok
      ensures |stages| > 1 ==> stages[1] == RecordingsStage(gatherByMetadata, recordings)
      ensures |stages| > 2 <==> |stages| > 1 && stages[1].status == Ok
      ensures |stages| > 2 ==> stages[2] == APIStage(health)
      ensures status == stages[|stages| - 1].status
    {
      var m := GatherMeetings(meetings);
      stages := [m];
      if m.status != Ok {
        return stages, m.status;
      }
      var r := GatherRecordings(recordings);
      stages := stages + [r];
      if r.status != Ok {
        return stages, r.status;
      }
      var a := GatherAPIStatus(health);
      stages := stages + [a];
      status := a.status;
    }

    /** gatherAPIStatus: online is 1 exactly when the health check answered
        "SUCCESS"; a failed fetch still adds the online record, with 0. */
    method GatherAPIStatus(response: Fetch<HealthCheck>) returns (s: Stage)
      ensures s == APIStage(response)
    {
      if response.FetchPanicked? {
        return Stage([], {}, Panicked);
      }
      var record: map<string, nat> := map["online" := 0];
      if response.FetchFailed? {
        var fields := ToStringMapInterface(record);
        return Stage([Measurement(APIMeasurement, fields)], {}, Failed(response.error));
      }
      if response.value.returnCode == "SUCCESS" {
        record := record["online" := 1];
      }
      assert record == map["online" := APIStage(response).emitted[0].fields["online"].value];
      var fields := ToStringMapInterface(record);
      return Stage([Measurement(APIMeasurement, fields)], {}, Ok);
    }

    /** gatherMeetings: counts every meeting into the global record and, when
        metadata names are configured, into its per-metadata buckets. */
    method GatherMeetings(response: Fetch<MeetingsResponse>) returns (s: Stage)
      ensures s == MeetingsStage(gatherByMetadata, response)
    {
      if response.FetchPanicked? {
        return Stage([], {}, Panicked);
      }
      if response.FetchFailed? {
        return Stage([], {}, Failed(response.error));
      }
      var resp := response.value;
      var record := EmptyMeetingsMap();
      var mRecords: Buckets := map[];
      if resp.messageKey == "noMeetings" {
        var fields := ToStringMapInterface(record);
        return Stage([Measurement(MeetingsMeasurement, fields)], {}, Ok);
      }
      var ms := resp.meetings;
      for i := 0 to |ms|
        invariant !MeetingMetadataPanics(ms[..i])
        invariant record == Tally(CountMeeting, EmptyMeetingsMap(), ms[..i])
        invariant mRecords == MeetingBuckets(gatherByMetadata, ms[..i])
      {
        var meeting := ms[i];
        var parsed := XmlToMap(meeting.meta.metadata);
        if parsed.IndexOutOfRange? {
          assert MeetingMetadataPanics(ms) by {
            assert !Parses(ms[i].meta);
          }
          return Stage([], {}, Panicked);
        }
        ghost var counted := record;
        NoMeetingPanicStep(ms, i);
        CountMeetingIgnoresMetadata(ms[i], ms[i].meta.(parsedMetadata := parsed.bindings));
        meeting := meeting.(meta := meeting.meta.(parsedMetadata := parsed.bindings));
        record := Inc(record, "active_meetings", 1);
        record := Inc(record, "participant_count", meeting.participantCount);
        record := Inc(record, "listener_count", meeting.listenerCount);
        record := Inc(record, "voice_participant_count", meeting.voiceParticipantCount);
        record := Inc(record, "video_count", meeting.videoCount);
        if meeting.recording {
          record := Inc(record, "active_recording", 1);
        }
        assert record == CountMeeting(counted, ms[i]);
        TallyStep(CountMeeting, EmptyMeetingsMap(), ms, i);
        var before := mRecords;
        if ShouldGatherByMetadata() {
          mRecords := GatherMeetingsByMetadata(mRecords, meeting);
        }
        FanOutSameCount(before, gatherByMetadata, parsed.bindings, MeetingsSuffix, meeting, ms[i], CountMeeting, EmptyMeetingsMap());
        MeetingBucketsStep(gatherByMetadata, ms, i);
      }
      assert ms[..|ms|] == ms;
      MeetingTally(ms);
      var fields := ToStringMapInterface(record);
      return Stage([Measurement(MeetingsMeasurement, fields)], MetadataMeasurements(mRecords), Ok);
    }

    /** gatherMeetingsByMetadata: fans one meeting out over the configured names. */
    method GatherMeetingsByMetadata(records: Buckets, meeting: Meeting) returns (rec: Buckets)
      ensures rec == FanOut(records, gatherByMetadata, meeting.meta.parsedMetadata, MeetingsSuffix,
                            meeting, CountMeeting, EmptyMeetingsMap())
    {
      rec := records;
      for i := 0 to |gatherByMetadata|
        invariant rec == FanOut(records, gatherByMetadata[..i], meeting.meta.parsedMetadata, MeetingsSuffix,
                                meeting, CountMeeting, EmptyMeetingsMap())
      {
        assert gatherByMetadata[..i + 1][..i] == gatherByMetadata[..i];
        var name := gatherByMetadata[i];
        if name in meeting.meta.parsedMetadata {
          var key := meeting.meta.parsedMetadata[name] + MeetingsSuffix;
          if key !in rec {
            rec := rec[key := EmptyMeetingsMap()];
          }
          var fields := rec[key];
          fields := Inc(fields, "active_meetings", 1);
          fields := Inc(fields, "participant_count", meeting.participantCount);
          fields := Inc(fields, "listener_count", meeting.listenerCount);
          fields := Inc(fields, "voice_participant_count", meeting.voiceParticipantCount);
          fields := Inc(fields, "video_count", meeting.videoCount);
          if meeting.recording {
            fields := Inc(fields, "active_recording", 1);
          }
          rec := rec[key := fields];
        }
      }
      assert gatherByMetadata[..|gatherByMetadata|] == gatherByMetadata;
    }

    /** gatherRecordings: counts every recording into the global record and,
        when metadata names are configured, into its per-metadata buckets. */
    method GatherRecordings(response: Fetch<RecordingsResponse>) returns (s: Stage)
      ensures s == RecordingsStage(gatherByMetadata, response)
    {
      if response.FetchPanicked? {
        return Stage([], {}, Panicked);
      }
      if response.FetchFailed? {
        return Stage([], {}, Failed(response.error));
      }
      var resp := response.value;
      var record := EmptyRecordingsMap();
      var mRecords: Buckets := map[];
      if resp.messageKey == "noRecordings" {
        var fields := ToStringMapInterface(record);
        return Stage([Measurement(RecordingsMeasurement, fields)], {}, Ok);
      }
      var rs := resp.recordings;
      for i := 0 to |rs|
        invariant !RecordingMetadataPanics(rs[..i])
        invariant record == Tally(CountRecording, EmptyRecordingsMap(), rs[..i])
        invariant mRecords == RecordingBuckets(gatherByMetadata, rs[..i])
      {
        var recording := rs[i];
        var parsed := XmlToMap(recording.meta.metadata);
        if parsed.IndexOutOfRange? {
          assert RecordingMetadataPanics(rs) by {
            assert !Parses(rs[i].meta);
          }
          return Stage([], {}, Panicked);
        }
        ghost var counted := record;
        NoRecordingPanicStep(rs, i);
        CountRecordingIgnoresMetadata(rs[i], rs[i].meta.(parsedMetadata := parsed.bindings));
        recording := recording.(meta := recording.meta.(parsedMetadata := parsed.bindings));
        record := Inc(record, "recordings_count", 1);
        if recording.published {
          record := Inc(record, "published_recordings_count", 1);
        }
        assert record == CountRecording(counted, rs[i]);
        TallyStep(CountRecording, EmptyRecordingsMap(), rs, i);
        var before := mRecords;
        if ShouldGatherByMetadata() {
          mRecords := GatherRecordingsByMetadata(mRecords, recording);
        }
        FanOutSameCount(before, gatherByMetadata, parsed.bindings, RecordingsSuffix, recording, rs[i], CountRecording, EmptyRecordingsMap());
        RecordingBucketsStep(gatherByMetadata, rs, i);
      }
      assert rs[..|rs|] == rs;
      RecordingTally(rs);
      var fields := ToStringMapInterface(record);
      return Stage([Measurement(RecordingsMeasurement, fields)], MetadataMeasurements(mRecords), Ok);
    }

    /** gatherRecordingsByMetadata: fans one recording out over the configured names. */
    method GatherRecordingsByMetadata(records: Buckets, recording: Recording) returns (rec: Buckets)
      ensures rec == FanOut(records, gatherByMetadata, recording.meta.parsedMetadata, RecordingsSuffix,
                            recording, CountRecording, EmptyRecordingsMap())
    {
      rec := records;
      for i := 0 to |gatherByMetadata|
        invariant rec == FanOut(records, gatherByMetadata[..i], recording.meta.parsedMetadata, RecordingsSuffix,
                                recording, CountRecording, EmptyRecordingsMap())
      {
        assert gatherByMetadata[..i + 1][..i] == gatherByMetadata[..i];
        var name := gatherByMetadata[i];
        if name in recording.meta.parsedMetadata {
          var key := recording.meta.parsedMetadata[name] + RecordingsSuffix;
          if key !in rec {
            rec := rec[key := EmptyRecordingsMap()];
          }
          var fields := rec[key];
          fields := Inc(fields, "recordings_count", 1);
          if recording.published {
            fields := Inc(fields, "published_recordings_count", 1);
          }
          rec := rec[key := fields];
        }
      }
      assert gatherByMetadata[..|gatherByMetadata|] == gatherByMetadata;
    }
  }
}
