/** The metric shapes of plugins/inputs/bigbluebutton/model.go, and the
    aggregates they are meant to hold.

    `MeetingTotals` and `RecordingTotals` say what a meetings or recordings
    metric should contain for a list of meetings or recordings: one count per
    item and the sum of each counter. The loops of record.go and
    bigbluebutton.go are proved against them. */
module Model {
  import opened Api

  /** MeetingsMetric: the six meeting counters. */
  datatype MeetingsMetric = MeetingsMetric(
    meetings: nat,
    participants: nat,
    listenerParticipants: nat,
    voiceParticipants: nat,
    videoParticipants: nat,
    activeRecordings: nat)

  /** RecordingsMetric: the two recording counters. */
  datatype RecordingsMetric = RecordingsMetric(recordings: nat, publishedRecordings: nat)

  /** APIStatusMetric: the online counter. */
  datatype APIStatusMetric = APIStatusMetric(online: nat)

  /** Two partial meeting aggregates put together. */
  function CombineMeetings(a: MeetingsMetric, b: MeetingsMetric): MeetingsMetric
  {
    MeetingsMetric(
      a.meetings + b.meetings,
      a.participants + b.participants,
      a.listenerParticipants + b.listenerParticipants,
      a.voiceParticipants + b.voiceParticipants,
      a.videoParticipants + b.videoParticipants,
      a.activeRecordings + b.activeRecordings)
  }

  /** Two partial recording aggregates put together. */
  function CombineRecordings(a: RecordingsMetric, b: RecordingsMetric): RecordingsMetric
  {
    RecordingsMetric(a.recordings + b.recordings, a.publishedRecordings + b.publishedRecordings)
  }

  /** NewMeetingMetric: every counter is 0, so it is the neutral aggregate. */
  function NewMeetingMetric(): (r: MeetingsMetric)
    ensures r.meetings == r.participants == r.listenerParticipants == 0
    ensures r.voiceParticipants == r.videoParticipants == r.activeRecordings == 0
    ensures forall t :: CombineMeetings(r, t) == t
  {
    MeetingsMetric(0, 0, 0, 0, 0, 0)
  }

  /** NewMetadataMeetingMetric: the empty per-metadata map. */
  function NewMetadataMeetingMetric(): (r: map<string, MeetingsMetric>)
    ensures |r| == 0
  {
    map[]
  }

  /** NewRecordingMetric: both counters are 0, so it is the neutral aggregate. */
  function NewRecordingMetric(): (r: RecordingsMetric)
    ensures r.recordings == r.publishedRecordings == 0
    ensures forall t :: CombineRecordings(r, t) == t
  {
    RecordingsMetric(0, 0)
  }

  /** NewMetadataRecordingMetric: the empty per-metadata map. */
  function NewMetadataRecordingMetric(): (r: map<string, RecordingsMetric>)
    ensures |r| == 0
  {
    map[]
  }

  /** NewAPIStatusMetric: offline until a health check says otherwise. */
  function NewAPIStatusMetric(): (r: APIStatusMetric)
    ensures r.online == 0
  {
    APIStatusMetric(0)
  }

  /** One meeting counted into an aggregate. */
  function AddMeeting(t: MeetingsMetric, m: Meeting): MeetingsMetric
  {
    MeetingsMetric(
      t.meetings + 1,
      t.participants + m.participantCount,
      t.listenerParticipants + m.listenerCount,
      t.voiceParticipants + m.voiceParticipantCount,
      t.videoParticipants + m.videoCount,
      t.activeRecordings + (if m.recording then 1 else 0))
  }

  /** One recording counted into an aggregate. */
  function AddRecording(t: RecordingsMetric, r: Recording): RecordingsMetric
  {
    RecordingsMetric(t.recordings + 1, t.publishedRecordings + (if r.published then 1 else 0))
  }

  /** The aggregate of a list of meetings: one per meeting, each counter the
      sum of the matching meeting field, and one active recording per
      meeting that is being recorded. */
  function MeetingTotals(ms: seq<Meeting>): (t: MeetingsMetric)
    ensures t.meetings == |ms|
    ensures t.activeRecordings <= t.meetings
  {
    if ms == [] then NewMeetingMetric() else AddMeeting(MeetingTotals(ms[..|ms| - 1]), ms[|ms| - 1])
  }

  /** The aggregate of a list of recordings: one per recording, and one
      published recording per published one. */
  function RecordingTotals(rs: seq<Recording>): (t: RecordingsMetric)
    ensures t.recordings == |rs|
    ensures t.publishedRecordings <= t.recordings
  {
    if rs == [] then NewRecordingMetric() else AddRecording(RecordingTotals(rs[..|rs| - 1]), rs[|rs| - 1])
  }

  /** The positions of the meetings being recorded. */
  function RecordedPositions(ms: seq<Meeting>): set<nat>
  {
    set i: nat | i < |ms| && ms[i].recording
  }

  /** The number of meetings being recorded. */
  function RecordingCount(ms: seq<Meeting>): nat
  {
    |RecordedPositions(ms)|
  }

  /** The positions of the published recordings. */
  function PublishedPositions(rs: seq<Recording>): set<nat>
  {
    set i: nat | i < |rs| && rs[i].published
  }

  /** The number of published recordings. */
  function PublishedCount(rs: seq<Recording>): nat
  {
    |PublishedPositions(rs)|
  }

  /** Active recordings are the recorded meetings, counted one each. */
  lemma {:induction false} ActiveRecordingsCounted(ms: seq<Meeting>)
    ensures MeetingTotals(ms).activeRecordings == RecordingCount(ms)
    ensures (forall i :: 0 <= i < |ms| ==> ms[i].recording) ==> RecordingCount(ms) == |ms|
    ensures (forall i :: 0 <= i < |ms| ==> !ms[i].recording) ==> RecordingCount(ms) == 0
  {
    if ms != [] {
      ActiveRecordingsCounted(ms[..|ms| - 1]);
      RecordedPositionsLast(ms);
    }
  }

  /** The last meeting adds its position, or nothing. */
  lemma RecordedPositionsLast(ms: seq<Meeting>)
    requires ms != []
    ensures var n := |ms| - 1;
      |RecordedPositions(ms)| == |RecordedPositions(ms[..n])| + (if ms[n].recording then 1 else 0)
  {
    var n := |ms| - 1;
    assert RecordedPositions(ms) == RecordedPositions(ms[..n]) + (if ms[n].recording then {n} else {});
  }

  /** Published recordings are counted one each. */
  lemma {:induction false} PublishedRecordingsCounted(rs: seq<Recording>)
    ensures RecordingTotals(rs).publishedRecordings == PublishedCount(rs)
    ensures (forall i :: 0 <= i < |rs| ==> rs[i].published) ==> PublishedCount(rs) == |rs|
    ensures (forall i :: 0 <= i < |rs| ==> !rs[i].published) ==> PublishedCount(rs) == 0
  {
    if rs != [] {
      PublishedRecordingsCounted(rs[..|rs| - 1]);
      PublishedPositionsLast(rs);
    }
  }

  /** The last recording adds its position, or nothing. */
  lemma PublishedPositionsLast(rs: seq<Recording>)
    requires rs != []
    ensures var n := |rs| - 1;
      |PublishedPositions(rs)| == |PublishedPositions(rs[..n])| + (if rs[n].published then 1 else 0)
  {
    var n := |rs| - 1;
    assert PublishedPositions(rs) == PublishedPositions(rs[..n]) + (if rs[n].published then {n} else {});
  }

  /** Aggregating two lists one after the other is combining their aggregates. */
  lemma {:induction false} MeetingTotalsAppend(a: seq<Meeting>, b: seq<Meeting>)
    ensures MeetingTotals(a + b) == CombineMeetings(MeetingTotals(a), MeetingTotals(b))
    decreases |b|
  {
    if b == [] {
      assert a + b == a;
    } else {
      var b' := b[..|b| - 1];
      assert (a + b)[..|a + b| - 1] == a + b';
      MeetingTotalsAppend(a, b');
    }
  }

  /** Aggregating two lists one after the other is combining their aggregates. */
  lemma {:induction false} RecordingTotalsAppend(a: seq<Recording>, b: seq<Recording>)
    ensures RecordingTotals(a + b) == CombineRecordings(RecordingTotals(a), RecordingTotals(b))
    decreases |b|
  {
    if b == [] {
      assert a + b == a;
    } else {
      var b' := b[..|b| - 1];
      assert (a + b)[..|a + b| - 1] == a + b';
      RecordingTotalsAppend(a, b');
    }
  }

  /** The order of the meetings does not matter: any permutation of the list
      has the same aggregate. */
  lemma {:induction false} MeetingTotalsPermutation(a: seq<Meeting>, b: seq<Meeting>)
    requires multiset(a) == multiset(b)
    ensures MeetingTotals(a) == MeetingTotals(b)
    decreases |a|
  {
    if a != [] {
      var n := |a| - 1;
      var x := a[n];
      assert a == a[..n] + [x];
      assert x in multiset(b);
      var k :| 0 <= k < |b| && b[k] == x;
      var front, back := b[..k], b[k + 1..];
      assert b == front + [x] + back;
      MultisetRemove(a[..n], x, b, k);
      MeetingTotalsPermutation(a[..n], front + back);
      MeetingTotalsInsert(front, x, back);
    }
  }

  /** Inserting an item anywhere in a list adds it to the aggregate. */
  lemma MeetingTotalsInsert(front: seq<Meeting>, x: Meeting, back: seq<Meeting>)
    ensures MeetingTotals(front + [x] + back) == AddMeeting(MeetingTotals(front + back), x)
  {
    MeetingTotalsAppend(front + [x], back);
    MeetingTotalsAppend(front, back);
    assert (front + [x])[..|front|] == front;
  }

  /** The order of the recordings does not matter: any permutation of the
      list has the same aggregate. */
  lemma {:induction false} RecordingTotalsPermutation(a: seq<Recording>, b: seq<Recording>)
    requires multiset(a) == multiset(b)
    ensures RecordingTotals(a) == RecordingTotals(b)
    decreases |a|
  {
    if a != [] {
      var n := |a| - 1;
      var x := a[n];
      assert a == a[..n] + [x];
      assert x in multiset(b);
      var k :| 0 <= k < |b| && b[k] == x;
      var front, back := b[..k], b[k + 1..];
      assert b == front + [x] + back;
      MultisetRemove(a[..n], x, b, k);
      RecordingTotalsPermutation(a[..n], front + back);
      RecordingTotalsInsert(front, x, back);
    }
  }

  /** Inserting an item anywhere in a list adds it to the aggregate. */
  lemma RecordingTotalsInsert(front: seq<Recording>, x: Recording, back: seq<Recording>)
    ensures RecordingTotals(front + [x] + back) == AddRecording(RecordingTotals(front + back), x)
  {
    RecordingTotalsAppend(front + [x], back);
    RecordingTotalsAppend(front, back);
    assert (front + [x])[..|front|] == front;
  }

  /** Taking the same element out of two equal multisets leaves them equal. */
  lemma MultisetRemove<T>(a: seq<T>, x: T, b: seq<T>, k: nat)
    requires multiset(a + [x]) == multiset(b)
    requires k < |b| && b[k] == x
    ensures multiset(a) == multiset(b[..k] + b[k + 1..])
  {
    var rest := b[..k] + b[k + 1..];
    assert b == b[..k] + [x] + b[k + 1..];
    calc {
      multiset(a) + multiset([x]);
      multiset(a + [x]);
      multiset(b);
      multiset(b[..k]) + multiset([x]) + multiset(b[k + 1..]);
      multiset(rest) + multiset([x]);
    }
    assert multiset(a) == multiset(a) + multiset([x]) - multiset([x]);
    assert multiset(rest) == multiset(rest) + multiset([x]) - multiset([x]);
  }
}
