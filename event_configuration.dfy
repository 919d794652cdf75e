/**
 * The configuration of an event: its type, playoff format, how teams are
 * identified, alliance sizes and the post-qualification settings. A
 * configuration is a mutable object with one setter per field; `toJSON`
 * writes the ten fields under snake_case keys and `fromJSON` builds a new
 * configuration from such an object.
 */
module EventConfigurations {
  import opened JsonValues

  /** The ten fields of a configuration; `None` is a field that is `undefined`. */
  datatype EventConfig = EventConfig(
    eventType: Option<string>,
    playoffsConfig: Option<string>,
    teamIdentifier: Option<string>,
    requiresTOA: Option<bool>,
    teamsPerAlliance: Option<int>,
    postQualTeamsPerAlliance: Option<int>,
    allianceCaptains: Option<int>,
    rankingCutoff: Option<int>,
    fieldsControlled: Option<seq<int>>,
    elimsFormat: Option<string>)

  /** What the constructor leaves: the three name fields stay unset. */
  const DEFAULT: EventConfig :=
    EventConfig(None, None, None, Some(false), Some(0), Some(0), Some(0), Some(0), Some([]), Some("bo3"))

  const KEYS: set<string> := {
    "event_type", "post_qual_config", "team_identifier", "requires_toa", "teams_per_alliance",
    "post_qual_teams_per_alliance", "alliance_captains", "ranking_cutoff", "fields_controlled",
    "elims_format"
  }

  /** `toJSON`: one key per field; `requires_toa` carries the boolean itself. */
  function Encode(c: EventConfig): (j: Json)
    ensures j.JObj? && j.fields.Keys == KEYS
    ensures c.requiresTOA.Some? ==> j.fields["requires_toa"] == JBool(c.requiresTOA.value)
    ensures c.requiresTOA.None? ==> j.fields["requires_toa"] == JUndefined
  {
    JObj(map[
      "event_type" := OfString(c.eventType),
      "post_qual_config" := OfString(c.playoffsConfig),
      "team_identifier" := OfString(c.teamIdentifier),
      "requires_toa" := OfBool(c.requiresTOA),
      "teams_per_alliance" := OfInt(c.teamsPerAlliance),
      "post_qual_teams_per_alliance" := OfInt(c.postQualTeamsPerAlliance),
      "alliance_captains" := OfInt(c.allianceCaptains),
      "ranking_cutoff" := OfInt(c.rankingCutoff),
      "fields_controlled" := OfIntArray(c.fieldsControlled),
      "elims_format" := OfString(c.elimsFormat)
    ])
  }

  /** The JSON values a field of the given key can hold: a string, a boolean, a number or an array of numbers. */
  predicate WellTyped(key: string, v: Json) {
    if key in {"event_type", "post_qual_config", "team_identifier", "elims_format"} then v.JStr?
    else if key == "requires_toa" then v.JBool?
    else if key == "fields_controlled" then v.JArr? && forall i :: 0 <= i < |v.items| ==> v.items[i].JNum?
    else v.JNum?
  }

  /** A value as a field of the given key keeps it: itself when well typed, `undefined` otherwise. */
  function Kept(key: string, v: Json): Json {
    if WellTyped(key, v) then v else JUndefined
  }

  /**
   * The configuration `fromJSON` builds: every field is read from its key.
   * Each field, written out again, is the value of its key when that value
   * is well typed, and `undefined` otherwise.
   */
  function Decode(j: Json): (c: EventConfig)
    requires HasProperties(j)
    ensures OfString(c.eventType) == Kept("event_type", Field(j, "event_type"))
    ensures OfString(c.playoffsConfig) == Kept("post_qual_config", Field(j, "post_qual_config"))
    ensures OfString(c.teamIdentifier) == Kept("team_identifier", Field(j, "team_identifier"))
    ensures OfBool(c.requiresTOA) == Kept("requires_toa", Field(j, "requires_toa"))
    ensures OfInt(c.teamsPerAlliance) == Kept("teams_per_alliance", Field(j, "teams_per_alliance"))
    ensures OfInt(c.postQualTeamsPerAlliance) == Kept("post_qual_teams_per_alliance", Field(j, "post_qual_teams_per_alliance"))
    ensures OfInt(c.allianceCaptains) == Kept("alliance_captains", Field(j, "alliance_captains"))
    ensures OfInt(c.rankingCutoff) == Kept("ranking_cutoff", Field(j, "ranking_cutoff"))
    ensures OfIntArray(c.fieldsControlled) == Kept("fields_controlled", Field(j, "fields_controlled"))
    ensures OfString(c.elimsFormat) == Kept("elims_format", Field(j, "elims_format"))
  {
    IntArrayReadBack(Field(j, "fields_controlled"));
    EventConfig(
      ReadString(Field(j, "event_type")),
      ReadString(Field(j, "post_qual_config")),
      ReadString(Field(j, "team_identifier")),
      ReadBool(Field(j, "requires_toa")),
      ReadInt(Field(j, "teams_per_alliance")),
      ReadInt(Field(j, "post_qual_teams_per_alliance")),
      ReadInt(Field(j, "alliance_captains")),
      ReadInt(Field(j, "ranking_cutoff")),
      ReadIntArray(Field(j, "fields_controlled")),
      ReadString(Field(j, "elims_format")))
  }

  /** The keys written and read match one for one: the round trip keeps all ten fields. */
  lemma RoundTrip(c: EventConfig)
    ensures Decode(Encode(c)) == c
  {
    IntArrayRoundTrip(c.fieldsControlled);
  }

  /** A configuration that `fromJSON` reads from an object without any of the keys is entirely unset. */
  lemma DecodeEmptyObject()
    ensures Decode(JObj(map[])) == EventConfig(None, None, None, None, None, None, None, None, None, None)
  {
  }

  class EventConfiguration {
    var eventType: Option<string>
    var playoffsConfig: Option<string>
    var teamIdentifier: Option<string>
    var requiresTOA: Option<bool>
    var teamsPerAlliance: Option<int>
    var postQualTeamsPerAlliance: Option<int>
    var allianceCaptains: Option<int>
    var rankingCutoff: Option<int>
    var fieldsControlled: Option<seq<int>>
    var elimsFormat: Option<string>

    /** The fields as one value. */
    function Snapshot(): EventConfig
      reads this
    {
      EventConfig(eventType, playoffsConfig, teamIdentifier, requiresTOA, teamsPerAlliance,
                  postQualTeamsPerAlliance, allianceCaptains, rankingCutoff, fieldsControlled, elimsFormat)
    }

    constructor ()
      ensures Snapshot() == DEFAULT
    {
      // never assigned by the constructor, so undefined
      eventType, playoffsConfig, teamIdentifier := None, None, None;
      requiresTOA := Some(false);
      teamsPerAlliance := Some(0);
      postQualTeamsPerAlliance := Some(0);
      allianceCaptains := Some(0);
      rankingCutoff := Some(0);
      elimsFormat := Some("bo3");
      fieldsControlled := Some([]);
    }

    method SetEventType(value: Option<string>)
      modifies this`eventType
      ensures Snapshot() == old(Snapshot()).(eventType := value)
    {
      eventType := value;
    }

    method SetPlayoffsConfig(value: Option<string>)
      modifies this`playoffsConfig
      ensures Snapshot() == old(Snapshot()).(playoffsConfig := value)
    {
      playoffsConfig := value;
    }

    method SetTeamIdentifier(value: Option<string>)
      modifies this`teamIdentifier
      ensures Snapshot() == old(Snapshot()).(teamIdentifier := value)
    {
      teamIdentifier := value;
    }

    method SetRequiresTOA(value: Option<bool>)
      modifies this`requiresTOA
      ensures Snapshot() == old(Snapshot()).(requiresTOA := value)
    {
      requiresTOA := value;
    }

    method SetTeamsPerAlliance(value: Option<int>)
      modifies this`teamsPerAlliance
      ensures Snapshot() == old(Snapshot()).(teamsPerAlliance := value)
    {
      teamsPerAlliance := value;
    }

    method SetPostQualTeamsPerAlliance(value: Option<int>)
      modifies this`postQualTeamsPerAlliance
      ensures Snapshot() == old(Snapshot()).(postQualTeamsPerAlliance := value)
    {
      postQualTeamsPerAlliance := value;
    }

    method SetAllianceCaptains(value: Option<int>)
      modifies this`allianceCaptains
      ensures Snapshot() == old(Snapshot()).(allianceCaptains := value)
    {
      allianceCaptains := value;
    }

    method SetRankingCutoff(value: Option<int>)
      modifies this`rankingCutoff
      ensures Snapshot() == old(Snapshot()).(rankingCutoff := value)
    {
      rankingCutoff := value;
    }

    method SetFieldsControlled(value: Option<seq<int>>)
      modifies this`fieldsControlled
      ensures Snapshot() == old(Snapshot()).(fieldsControlled := value)
    {
      fieldsControlled := value;
    }

    method SetElimsFormat(value: Option<string>)
      modifies this`elimsFormat
      ensures Snapshot() == old(Snapshot()).(elimsFormat := value)
    {
      elimsFormat := value;
    }

    /** Builds a new configuration from `json` through the setters; the receiver is left as it was. */
    method FromJSON(json: Json) returns (config: EventConfiguration)
      requires HasProperties(json)
      ensures fresh(config)
      ensures config.Snapshot() == Decode(json)
      ensures Snapshot() == old(Snapshot())
    {
      config := new EventConfiguration();
      config.SetEventType(ReadString(Field(json, "event_type")));
      config.SetPlayoffsConfig(ReadString(Field(json, "post_qual_config")));
      config.SetTeamIdentifier(ReadString(Field(json, "team_identifier")));
      config.SetRequiresTOA(ReadBool(Field(json, "requires_toa")));
      config.SetTeamsPerAlliance(ReadInt(Field(json, "teams_per_alliance")));
      config.SetPostQualTeamsPerAlliance(ReadInt(Field(json, "post_qual_teams_per_alliance")));
      config.SetAllianceCaptains(ReadInt(Field(json, "alliance_captains")));
      config.SetRankingCutoff(ReadInt(Field(json, "ranking_cutoff")));
      config.SetFieldsControlled(ReadIntArray(Field(json, "fields_controlled")));
      config.SetElimsFormat(ReadString(Field(json, "elims_format")));
    }
  }

  /**
   * The module-level presets, built in source order. The line meant to set
   * the rover preset's alliance captains writes to the relic preset
   * instead, so the rover preset keeps the default of 0 captains.
   */
  method BuildPresets() returns (fgc: EventConfiguration, relic: EventConfiguration,
                                 rover: EventConfiguration, reset: EventConfiguration)
    ensures fresh(fgc) && fresh(relic) && fresh(rover) && fresh(reset)
    ensures fgc.Snapshot() == DEFAULT.(eventType := Some("fgc_2019"), playoffsConfig := Some("finals"),
                                       teamIdentifier := Some("country"), teamsPerAlliance := Some(3),
                                       postQualTeamsPerAlliance := Some(3), rankingCutoff := Some(32))
    ensures relic.Snapshot() == DEFAULT.(eventType := Some("ftc_1718"), playoffsConfig := Some("elims"),
                                         teamIdentifier := Some("team_key"), requiresTOA := Some(true),
                                         allianceCaptains := Some(4), teamsPerAlliance := Some(2),
                                         postQualTeamsPerAlliance := Some(3))
    ensures rover.Snapshot() == relic.Snapshot().(eventType := Some("ftc_1819"), allianceCaptains := Some(0))
    ensures reset.Snapshot() == rover.Snapshot().(allianceCaptains := Some(4))
  {
    fgc := new EventConfiguration();
    fgc.SetEventType(Some("fgc_2019"));
    fgc.SetPlayoffsConfig(Some("finals"));
    fgc.SetTeamIdentifier(Some("country"));
    fgc.SetRequiresTOA(Some(false));
    fgc.SetTeamsPerAlliance(Some(3));
    fgc.SetPostQualTeamsPerAlliance(Some(3));
    fgc.SetRankingCutoff(Some(32));

    relic := new EventConfiguration();
    relic.SetEventType(Some("ftc_1718"));
    relic.SetPlayoffsConfig(Some("elims"));
    relic.SetTeamIdentifier(Some("team_key"));
    relic.SetRequiresTOA(Some(true));
    relic.SetAllianceCaptains(Some(4));
    relic.SetTeamsPerAlliance(Some(2));
    relic.SetPostQualTeamsPerAlliance(Some(3));

    rover := new EventConfiguration();
    rover.SetEventType(Some("ftc_1819"));
    rover.SetPlayoffsConfig(Some("elims"));
    rover.SetTeamIdentifier(Some("team_key"));
    rover.SetRequiresTOA(Some(true));
    relic.SetAllianceCaptains(Some(4));
    rover.SetTeamsPerAlliance(Some(2));
    rover.SetPostQualTeamsPerAlliance(Some(3));

    reset := new EventConfiguration();
    reset.SetEventType(Some("ftc_1819"));
    reset.SetPlayoffsConfig(Some("elims"));
    reset.SetTeamIdentifier(Some("team_key"));
    reset.SetRequiresTOA(Some(true));
    reset.SetAllianceCaptains(Some(4));
    reset.SetTeamsPerAlliance(Some(2));
    reset.SetPostQualTeamsPerAlliance(Some(3));
  }
}
