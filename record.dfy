/** The telegraf record of plugins/inputs/bigbluebutton/record.go: nine
    counters, filled from meetings, recordings and a health check, and
    projected to a field map. */
module Records {
  import opened Api
  import opened Model

  /** The nine field names of `ToMap`. */
  const RecordFieldNames: set<string> := {
    "meetings", "participants", "listener_participants", "voice_participants",
    "video_participants", "active_recordings", "recordings", "published_recordings", "online"}

  /** Record: the counters a Compute method updates in place. */
  class Record {
    var meetings: nat
    var participants: nat
    var listenerParticipants: nat
    var voiceParticipants: nat
    var videoParticipants: nat
    var activeRecordings: nat
    var recordings: nat
    var publishedRecordings: nat
    var online: nat

    /** NewRecord: every counter is 0. */
    constructor NewRecord()
      ensures meetings == participants == listenerParticipants == voiceParticipants == 0
      ensures videoParticipants == activeRecordings == recordings == publishedRecordings == online == 0
    {
      meetings, participants, listenerParticipants := 0, 0, 0;
      voiceParticipants, videoParticipants, activeRecordings := 0, 0, 0;
      recordings, publishedRecordings, online := 0, 0, 0;
    }

    /** The meeting counters, as a meetings aggregate. */
    function MeetingsPart(): MeetingsMetric
      reads this
    {
      MeetingsMetric(meetings, participants, listenerParticipants, voiceParticipants, videoParticipants, activeRecordings)
    }

    /** The recording counters, as a recordings aggregate. */
    function RecordingsPart(): RecordingsMetric
      reads this
    {
      RecordingsMetric(recordings, publishedRecordings)
    }

    /** NewRecordFrom: a new record computed from meetings, recordings and a
        health check. Each counter is the aggregate of its list, and online is
        1 exactly when the health check succeeded. */
    static method NewRecordFrom(m: seq<Meeting>, r: seq<Recording>, h: HealthCheck) returns (rec: Record)
      ensures fresh(rec)
      ensures rec.MeetingsPart() == MeetingTotals(m)
      ensures rec.RecordingsPart() == RecordingTotals(r)
      ensures rec.meetings == |m| && rec.recordings == |r|
      ensures rec.activeRecordings <= rec.meetings && rec.publishedRecordings <= rec.recordings
      ensures rec.online == if h.returnCode == "SUCCESS" then 1 else 0
    {
      rec := new Record.NewRecord();
      rec.ComputeMeetingMetrics(m);
      rec.ComputeRecordingMetrics(r);
      rec.ComputeOnlineMetric(h);
    }

    /** ToMap: exactly the nine field names, each bound to its counter. */
    function ToMap(): (r: map<string, nat>)
      reads this
      ensures r.Keys == RecordFieldNames
      ensures r["meetings"] == meetings && r["participants"] == participants
      ensures r["listener_participants"] == listenerParticipants
      ensures r["voice_participants"] == voiceParticipants
      ensures r["video_participants"] == videoParticipants
      ensures r["active_recordings"] == activeRecordings
      ensures r["recordings"] == recordings && r["published_recordings"] == publishedRecordings
      ensures r["online"] == online
    {
      var e: map<string, nat> := map[];
      var n: map<string, nat> := e["meetings" := meetings];
      var m: map<string, nat> := n["participants" := participants];
      var l: map<string, nat> := m["listener_participants" := listenerParticipants];
      var v: map<string, nat> := l["voice_participants" := voiceParticipants];
      var d: map<string, nat> := v["video_participants" := videoParticipants];
      var a: map<string, nat> := d["active_recordings" := activeRecordings];
      var r: map<string, nat> := a["recordings" := recordings];
      var p: map<string, nat> := r["published_recordings" := publishedRecordings];
      p["online" := online]
    }

    /** ComputeMeetingMetrics: nothing changes for an empty list. Otherwise the
        meeting count is SET to the number of meetings, while the other five
        meeting counters are RAISED by the list's aggregate. The recording and
        online counters are untouched. */
    method ComputeMeetingMetrics(ms: seq<Meeting>)
      modifies this
      ensures |ms| == 0 ==> MeetingsPart() == old(MeetingsPart())
      ensures |ms| > 0 ==> MeetingsPart() == CombineMeetings(old(MeetingsPart()).(meetings := 0), MeetingTotals(ms))
      ensures recordings == old(recordings) && publishedRecordings == old(publishedRecordings)
      ensures online == old(online)
    {
      if |ms| == 0 {
        return;
      }
      meetings := |ms|;
      for i := 0 to |ms|
        invariant MeetingsPart() == CombineMeetings(old(MeetingsPart()).(meetings := 0), MeetingTotals(ms[..i])).(meetings := |ms|)
        invariant recordings == old(recordings) && publishedRecordings == old(publishedRecordings)
        invariant online == old(online)
      {
        var m := ms[i];
        assert ms[..i + 1][..i] == ms[..i];
        participants := participants + m.participantCount;
        listenerParticipants := listenerParticipants + m.listenerCount;
        voiceParticipants := voiceParticipants + m.voiceParticipantCount;
        videoParticipants := videoParticipants + m.videoCount;
        if m.recording {
          activeRecordings := activeRecordings + 1;
        }
      }
      assert ms[..|ms|] == ms;
    }

    /** ComputeRecordingMetrics: nothing changes for an empty list. Otherwise
        the recording count is SET to the number of recordings and the
        published count is RAISED by the number of published ones. The
        meeting and online counters are untouched. */
    method ComputeRecordingMetrics(rs: seq<Recording>)
      modifies this
      ensures |rs| == 0 ==> RecordingsPart() == old(RecordingsPart())
      ensures |rs| > 0 ==> recordings == |rs|
      ensures |rs| > 0 ==> publishedRecordings == old(publishedRecordings) + RecordingTotals(rs).publishedRecordings
      ensures MeetingsPart() == old(MeetingsPart()) && online == old(online)
    {
      if |rs| == 0 {
        return;
      }
      recordings := |rs|;
      for i := 0 to |rs|
        invariant recordings == |rs|
        invariant publishedRecordings == old(publishedRecordings) + RecordingTotals(rs[..i]).publishedRecordings
        invariant MeetingsPart() == old(MeetingsPart()) && online == old(online)
      {
        assert rs[..i + 1][..i] == rs[..i];
        if rs[i].published {
          publishedRecordings := publishedRecordings + 1;
        }
      }
      assert rs[..|rs|] == rs;
    }

    /** ComputeOnlineMetric: online becomes 1 when the health check returned
        "SUCCESS"; otherwise it keeps its value (it is never reset to 0). */
    method ComputeOnlineMetric(h: HealthCheck)
      modifies this
      ensures online == if h.returnCode == "SUCCESS" then 1 else old(online)
      ensures MeetingsPart() == old(MeetingsPart()) && RecordingsPart() == old(RecordingsPart())
    {
      if h.returnCode == "SUCCESS" {
        online := 1;
      }
    }
  }

  /** ToMap loses nothing: two records with the same field map hold the same counters. */
  lemma ToMapIsLossless(a: Record, b: Record)
    requires a.ToMap() == b.ToMap()
    ensures a.MeetingsPart() == b.MeetingsPart()
    ensures a.RecordingsPart() == b.RecordingsPart()
    ensures a.online == b.online
  {
  }
}
