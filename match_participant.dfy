/**
 * A team's participation in one match: its station, card and flags. The
 * three flags are written to JSON as 1 or 0 and read back as "equals 1";
 * the surrogate flag is written under `surrogate` but read from
 * `surrogated`, so it never survives a round trip. The alliance key ends
 * in a segment `A<rank>` from which the alliance rank is parsed.
 */
module MatchParticipants {
  import opened JsonValues
  import opened Text

  const TEST_TEAM_KEY: int := -1

  const RED_ALLIANCE_ONE: int := 11
  const RED_ALLIANCE_TWO: int := 12
  const RED_ALLIANCE_THREE: int := 13

  const BLUE_ALLIANCE_ONE: int := 21
  const BLUE_ALLIANCE_TWO: int := 22
  const BLUE_ALLIANCE_THREE: int := 23

  const NO_CARD: int := 0
  const YELLOW_CARD: int := 1
  const RED_CARD: int := 2

  /** The scalar fields of a participant; `None` is a field that is `undefined`. */
  datatype Participant = Participant(
    matchParticipantKey: Option<string>,
    matchKey: Option<string>,
    teamKey: Option<int>,
    station: Option<int>,
    disqualified: bool,
    cardStatus: Option<int>,
    surrogate: bool,
    noShow: bool,
    allianceKey: Option<string>)

  const DEFAULT: Participant :=
    Participant(Some(""), Some(""), Some(TEST_TEAM_KEY), Some(-1), false, Some(NO_CARD), false, false, Some(""))

  /** The JSON encoding of a flag. */
  function Bit(b: bool): int {
    if b then 1 else 0
  }

  /** `toJSON`: the nine scalar fields, each flag as the number 1 when set and 0 otherwise. */
  function Encode(p: Participant): (j: Json)
    ensures j.JObj?
    ensures forall key :: key in {"disqualified", "surrogate", "no_show"} ==>
              key in j.fields && (j.fields[key] == JNum(0) || j.fields[key] == JNum(1))
    ensures j.fields["disqualified"] == JNum(1) <==> p.disqualified
    ensures j.fields["surrogate"] == JNum(1) <==> p.surrogate
    ensures j.fields["no_show"] == JNum(1) <==> p.noShow
  {
    JObj(map[
      "match_participant_key" := OfString(p.matchParticipantKey),
      "match_key" := OfString(p.matchKey),
      "team_key" := OfInt(p.teamKey),
      "station" := OfInt(p.station),
      "disqualified" := JNum(Bit(p.disqualified)),
      "card_status" := OfInt(p.cardStatus),
      "surrogate" := JNum(Bit(p.surrogate)),
      "no_show" := JNum(Bit(p.noShow)),
      "alliance_key" := OfString(p.allianceKey)
    ])
  }

  /** The participant `fromJSON` builds; a flag is set exactly when its value is the number 1. */
  function Decode(j: Json): (p: Participant)
    requires HasProperties(j)
    ensures p.disqualified <==> Field(j, "disqualified") == JNum(1)
    ensures p.surrogate <==> Field(j, "surrogated") == JNum(1)
    ensures p.noShow <==> Field(j, "no_show") == JNum(1)
  {
    Participant(
      ReadString(Field(j, "match_participant_key")),
      ReadString(Field(j, "match_key")),
      ReadInt(Field(j, "team_key")),
      ReadInt(Field(j, "station")),
      Field(j, "disqualified") == JNum(1),
      ReadInt(Field(j, "card_status")),
      Field(j, "surrogated") == JNum(1),
      Field(j, "no_show") == JNum(1),
      ReadString(Field(j, "alliance_key")))
  }

  /** The round trip keeps every scalar field except the surrogate flag, which comes back cleared. */
  lemma RoundTrip(p: Participant)
    ensures Decode(Encode(p)) == p.(surrogate := false)
  {
  }

  /** A surrogate participant does not survive the round trip. */
  lemma SurrogateLost(p: Participant)
    requires p.surrogate
    ensures Decode(Encode(p)) != p
  {
    RoundTrip(p);
  }

  /** An alliance key whose fourth `-`-separated segment is `A` and a decimal rank (the `A` may sit anywhere). */
  predicate WellFormedAllianceKey(key: string) {
    var parts := Split(key, '-');
    |parts| >= 4 && IsDigits(RemoveFirst(parts[3], 'A'))
  }

  /**
   * `getAllianceRankFromKey`: 0 when the key is undefined; otherwise the
   * fourth segment of the key without its first `A`, read as a decimal.
   */
  function AllianceRankFromKey(allianceKey: Option<string>): (rank: int)
    requires allianceKey.Some? ==> WellFormedAllianceKey(allianceKey.value)
    ensures allianceKey.None? ==> rank == 0
    ensures rank >= 0
  {
    if allianceKey.None? then 0
    else ParseDecimal(RemoveFirst(Split(allianceKey.value, '-')[3], 'A'))
  }

  /** An alliance key `<a>-<b>-<c>-A<rank>` yields `rank`. */
  lemma AllianceRankOfKey(a: string, b: string, c: string, rank: nat)
    requires '-' !in a && '-' !in b && '-' !in c
    ensures WellFormedAllianceKey(a + "-" + b + "-" + c + "-A" + NatToDecimal(rank))
    ensures AllianceRankFromKey(Some(a + "-" + b + "-" + c + "-A" + NatToDecimal(rank))) == rank
  {
    var last := "A" + NatToDecimal(rank);
    var parts := [a, b, c, last];
    assert '-' !in last by {
      assert forall i :: 0 <= i < |last| ==> last[i] == 'A' || IsDigit(last[i]);
    }
    assert Join(parts, '-') == a + "-" + b + "-" + c + "-A" + NatToDecimal(rank) by {
      assert Join(parts[3..], '-') == last;
      assert Join(parts[2..], '-') == c + "-" + last;
      assert Join(parts[1..], '-') == b + "-" + c + "-" + last;
    }
    SplitJoin(parts, '-');
    assert RemoveFirst(last, 'A') == NatToDecimal(rank);
    ParseNatToDecimal(rank);
  }

  class MatchParticipant {
    var matchParticipantKey: Option<string>
    var matchKey: Option<string>
    var teamKey: Option<int>
    var station: Option<int>
    var disqualified: bool
    var cardStatus: Option<int>
    var surrogate: bool
    var noShow: bool
    var allianceKey: Option<string>

    /** The scalar fields as one value. */
    function Snapshot(): Participant
      reads this
    {
      Participant(matchParticipantKey, matchKey, teamKey, station, disqualified, cardStatus,
                  surrogate, noShow, allianceKey)
    }

    constructor ()
      ensures Snapshot() == DEFAULT
    {
      matchParticipantKey := Some("");
      matchKey := Some("");
      teamKey := Some(TEST_TEAM_KEY);
      station := Some(-1);
      disqualified := false;
      cardStatus := Some(NO_CARD);
      surrogate := false;
      noShow := false;
      allianceKey := Some("");
    }

    /** Builds a new participant from `json` field by field; the receiver is left as it was. */
    method FromJSON(json: Json) returns (participant: MatchParticipant)
      requires HasProperties(json)
      ensures fresh(participant)
      ensures participant.Snapshot() == Decode(json)
      ensures Snapshot() == old(Snapshot())
    {
      participant := new MatchParticipant();
      participant.matchParticipantKey := ReadString(Field(json, "match_participant_key"));
      participant.matchKey := ReadString(Field(json, "match_key"));
      participant.teamKey := ReadInt(Field(json, "team_key"));
      participant.station := ReadInt(Field(json, "station"));
      participant.disqualified := Field(json, "disqualified") == JNum(1);
      participant.cardStatus := ReadInt(Field(json, "card_status"));
      participant.surrogate := Field(json, "surrogated") == JNum(1);
      participant.noShow := Field(json, "no_show") == JNum(1);
      participant.allianceKey := ReadString(Field(json, "alliance_key"));
    }
  }
}
