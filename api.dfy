/** The decoded API shapes of plugins/inputs/bigbluebutton/api.go.

    XML unmarshalling is a library and is not modelled: these datatypes are
    what it produces. The raw inner XML of a `<metadata>` element is kept as
    the token stream the decoder would read from it. Counters declared
    `uint64` are `nat` here. */
module Api {
  import opened Xml

  /** MetadataStruct: the raw metadata and the map parsed from it. A struct
      fresh from unmarshalling has a nil `ParsedMetadata`, which reads like
      the empty map. */
  datatype MetadataStruct = MetadataStruct(metadata: seq<Token>, parsedMetadata: map<string, string>)
  {
    /** ContainsMetadata: whether looking `md` up in the parsed metadata
        finds a binding. */
    predicate ContainsMetadata(md: string): (b: bool)
      ensures b <==> exists v :: (md, v) in parsedMetadata.Items
    {
      assert md in parsedMetadata ==> (md, parsedMetadata[md]) in parsedMetadata.Items;
      md in parsedMetadata
    }

    /** GetMetadata: the value bound to `md`, or Go's zero string when absent. */
    function GetMetadata(md: string): (v: string)
      ensures ContainsMetadata(md) ==> v == parsedMetadata[md]
      ensures !ContainsMetadata(md) ==> v == ""
    {
      if md in parsedMetadata then parsedMetadata[md] else ""
    }

    /** ParseMetadata: replaces the parsed metadata by what xmlToMap makes of
        the raw metadata, whatever it held before. When xmlToMap panics, the
        assignment never happens and the struct is left as it was. */
    method ParseMetadata() returns (r: MetadataStruct, panicked: bool)
      ensures panicked <==> Extract(metadata).IndexOutOfRange?
      ensures r.metadata == metadata
      ensures panicked ==> r.parsedMetadata == parsedMetadata
      ensures !panicked ==> r.parsedMetadata == Extract(metadata).bindings
    {
      var e := XmlToMap(metadata);
      if e.IndexOutOfRange? {
        return this, true;
      }
      r := this.(parsedMetadata := e.bindings);
      panicked := false;
    }
  }

  /** The struct as unmarshalling leaves it: raw metadata, nil parsed map. */
  function Unparsed(metadata: seq<Token>): MetadataStruct
  {
    MetadataStruct(metadata, map[])
  }

  /** Meeting: the counters of one running meeting, with embedded metadata. */
  datatype Meeting = Meeting(
    participantCount: nat,
    listenerCount: nat,
    voiceParticipantCount: nat,
    videoCount: nat,
    recording: bool,
    meta: MetadataStruct)

  /** Recording: one recording, with embedded metadata. */
  datatype Recording = Recording(recordID: string, published: bool, meta: MetadataStruct)

  /** HealthCheck: the answer of the server's health endpoint. */
  datatype HealthCheck = HealthCheck(returnCode: string, version: string)

  /** The envelope of the getMeetings answer. */
  datatype MeetingsResponse = MeetingsResponse(returnCode: string, messageKey: string, meetings: seq<Meeting>)

  /** The envelope of the getRecordings answer. */
  datatype RecordingsResponse = RecordingsResponse(returnCode: string, messageKey: string, recordings: seq<Recording>)

  /** Before any parse, no metadata is present and every lookup gives "". */
  lemma UnparsedIsEmpty(metadata: seq<Token>, md: string)
    ensures !Unparsed(metadata).ContainsMetadata(md)
    ensures Unparsed(metadata).GetMetadata(md) == ""
  {
  }

  /** After a parse that did not panic, a name is present exactly when an
      EndElement of that name was read before the first decoder error, and
      its value is the last text read before the last such EndElement. */
  lemma ParsedLookup(s: MetadataStruct, md: string)
    requires Extract(s.metadata).Extracted?
    ensures var p := s.(parsedMetadata := Extract(s.metadata).bindings);
      && (p.ContainsMetadata(md) <==> md in EndNames(Processed(s.metadata)))
      && forall j :: LastEndOf(Processed(s.metadata), j, md) ==>
           var seen := Texts(Processed(s.metadata)[..j]);
           |seen| > 0 && p.GetMetadata(md) == seen[|seen| - 1]
  {
    ExtractCharacterized(s.metadata);
  }
}
