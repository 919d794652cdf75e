# lib-ems remote client and record classes, in Dafny

This project models the core of the lib-ems client library for an event-management
service (tournament scheduling, team rosters, match results and rankings). It has two parts.

- **`FgcProviders`** models the remote client `FGCProvider`, with the HTTP transport
  abstracted away. It covers:
  - `initialize`, which builds the base URL `http://<host>:<port>/` and the request
    configuration;
  - the success check of `get`;
  - the three-way classification of transport failures into one
    `HttpError(status, code, url)` shape, including the per-verb difference in the
    error-body keys;
  - the `{records: [...]}` write envelope that `post` and `put` build in a loop;
  - the response shaping of `getEvent` and `getTeams`;
  - the path templates of the typed endpoints.

  The outcome of each request (`Ok(response)`, or a failure with a response, with only
  a request, or with a message) is an input.
- **`EventConfigurations`, `MatchParticipants` and `MatchConfigurations`** model three
  record classes. Each is a class with the source's fields, a `Snapshot()` value and its
  constructor, `toJSON` (`Encode`) and `fromJSON` (`Decode`, and a `FromJSON` method that
  builds a fresh object step by step). The setters of `EventConfiguration` and
  `MatchConfiguration` are methods; those of `MatchParticipant` only write their field, so
  its `FromJSON` assigns the fields directly.
  - `EventConfiguration`: the round trip keeps all ten fields. The presets are built in
    source order; because of the misdirected line in the rover preset, its alliance
    captains stay at 0.
  - `MatchParticipant`: the flags are written as 1/0 and read back as "equals 1". The
    surrogate flag is written under `surrogate` but read from `surrogated`, so it never
    survives a round trip. The alliance rank is parsed from the key.
  - `MatchConfiguration`: `totalTime` is recomputed only by the delay, autonomous and
    teleoperated setters. Whether it is up to date depends on the order of the setter
    calls; it is proved up to date after `fromJSON` and in `FGC_CONFIG`, and unset in
    `FTC_CONFIG`.

Two support modules hold the shared pieces:
- `JsonValues`: JavaScript values, with `undefined` kept apart from `null`, and typed
  field reads and writes.
- `Text`: splitting and joining on a separator, decimal printing and parsing, and removal
  of the first occurrence of a character.

`getEvent` falls back to a default event when the returned array is empty. That branch is
unreachable: `get` already rejects a zero-length array with `ERR_NO_DATA`
(`GetEventEmptyArrayRejected`). The model follows the code and proves this.

## Model

| member | source | states |
|---|---|---|
| FgcProviders.BaseUrl | src/providers/FGCProvider.ts:32 | the base URL is `http://`, then host `:` decimal port, then a trailing `/` |
| FgcProviders.BaseUrlInjective | src/providers/FGCProvider.ts:32 | any host (IPv6 literals included) and the port are recovered from the base URL, splitting at its last `:` |
| FgcProviders.FgcProvider.constructor | src/providers/FGCProvider.ts:14-16 | a new provider has no host, configuration or transport |
| FgcProviders.FgcProvider.Initialize | src/providers/FGCProvider.ts:31-41 | sets the host to the base URL and the configuration to that URL with a 5000 ms timeout and a JSON content type; creates the transport from it |
| FgcProviders.Classify | src/providers/FGCProvider.ts:51-58 | never resolves; with an error response, status and code are read from the body under the verb's keys (it throws when the body is null or undefined); with only a request, 404 `ERR_CONNECTION_REFUSED`; otherwise 404 with the error message; the URL is always host + url |
| FgcProviders.HasData | src/providers/FGCProvider.ts:46 | only defined, non-null values pass; a string or an array passes exactly when non-empty, an object exactly when its `length` property is a positive number |
| FgcProviders.FgcProvider.Get | src/providers/FGCProvider.ts:43-61 | resolves exactly when a transport exists and the data has positive length, with that data; rejects a defined empty value with 500 `ERR_NO_DATA`; classifies failures with `message`/`code`; rejects with a TypeError when uninitialised |
| FgcProviders.FgcProvider.Send | src/providers/FGCProvider.ts:68-78 | resolves exactly on a transport success, with the response; classifies failures with `_code`/`_message` |
| FgcProviders.FgcProvider.Delete | src/providers/FGCProvider.ts:63-80 | rejects with 500 `ERR_PROVIDER_UNDEFINED` when the transport or the host is unset; otherwise settles as the transport call |
| FgcProviders.BuildEnvelope | src/providers/FGCProvider.ts:84-91 | the payload is `{records}` holding every record's `toJSON` in order; one record gives a length-1 array |
| FgcProviders.FgcProvider.Post | src/providers/FGCProvider.ts:82-104 | a request goes out exactly when a transport exists, as POST with the envelope; settles as the shared transport call |
| FgcProviders.FgcProvider.Put | src/providers/FGCProvider.ts:106-128 | as `Post`, with PUT |
| FgcProviders.ConnectionRefusedUniform | src/providers/FGCProvider.ts:54-55 | a request without a response is rejected with the same error by `get` and by the other verbs |
| FgcProviders.ErrorKeysDifferByVerb | src/providers/FGCProvider.ts:53 | the same error body yields `(message, code)` under `get` but `(_code, _message)` under `delete` |
| FgcProviders.FgcProvider.GetEvent | src/providers/FGCProvider.ts:142-149 | on resolved data, element 0 deserialised, or the default event for an empty array; data without `map` rejects with a TypeError; rejections pass through |
| FgcProviders.GetEventEmptyArrayRejected | src/providers/FGCProvider.ts:46-50 | an empty array makes `getEvent` reject with `ERR_NO_DATA`, never resolve with the default event |
| FgcProviders.GetEventObjectWithLength | src/providers/FGCProvider.ts:142-149 | an object `{length: 2}` passes the check of `get` and makes `getEvent` reject with a TypeError |
| FgcProviders.GetEventFirst | src/providers/FGCProvider.ts:144-146 | a non-empty array resolves to its first element, deserialised |
| FgcProviders.FgcProvider.GetTeams | src/providers/FGCProvider.ts:151-157 | on resolved array data, every element deserialised with length and order kept; rejections pass through |
| FgcProviders.DeleteTeams | src/providers/FGCProvider.ts:159-161 | DELETE with no record body (the empty `data` option is not modelled); the path's `/` segments are `api, event, key, participants` |
| FgcProviders.DeleteMatchData | src/providers/FGCProvider.ts:163-165 | DELETE with no record body (the empty `data` option is not modelled); the segments are `api, match, key, all?level=<level>` |
| FgcProviders.DeleteMatchDataLevel | src/providers/FGCProvider.ts:164 | the level is recovered from the path, after its `=` |
| FgcProviders.DeleteRankings | src/providers/FGCProvider.ts:167-169 | DELETE with no record body (the empty `data` option is not modelled); the segments are `api, rank, key` |
| FgcProviders.PostEventParticipants | src/providers/FGCProvider.ts:171-173 | POST of the list; the segments are `api, event, key, participants` |
| FgcProviders.PostMatches | src/providers/FGCProvider.ts:175-177 | POST of the list; the segments are `api, event, key, matches` |
| FgcProviders.PostMatchDetails | src/providers/FGCProvider.ts:179-181 | POST of the list; the segments are `api, event, key, matches, details` |
| FgcProviders.PostMatchParticipants | src/providers/FGCProvider.ts:183-185 | POST of the list; the segments are `api, event, key, matches, participants` |
| FgcProviders.PostRankings | src/providers/FGCProvider.ts:187-189 | POST of the list; the segments are `api, rank, key` |
| FgcProviders.PutMatchResults | src/providers/FGCProvider.ts:191-193 | PUT of the single match; the segments are `api, match, matchKey` |
| FgcProviders.PutMatchDetails | src/providers/FGCProvider.ts:195-197 | PUT of the single record; the segments are `api, match, matchKey, details` |
| FgcProviders.PutMatchParticipants | src/providers/FGCProvider.ts:199-201 | a call exactly when the list is non-empty; PUT of the list under the first participant's match key |
| FgcProviders.PutEndpointsIgnoreEventKey | src/providers/FGCProvider.ts:191-201 | the three `put` endpoints do not depend on their event key |
| EventConfigurations.EventConfiguration.constructor | src/models/ems/EventConfiguration.ts:20-28 | the defaults: TOA false, the four counts 0, no fields controlled, `bo3`; the three names unset |
| EventConfigurations.Encode | src/models/ems/EventConfiguration.ts:30-43 | exactly the ten keys; `requires_toa` is the boolean itself |
| EventConfigurations.Decode | src/models/ems/EventConfiguration.ts:45-58 | each of the ten fields, written out again, is its key's value when that value has the field's type, and `undefined` otherwise |
| EventConfigurations.RoundTrip | src/models/ems/EventConfiguration.ts:30-58 | decoding the encoding gives back all ten fields |
| EventConfigurations.DecodeEmptyObject | src/models/ems/EventConfiguration.ts:45-58 | an object without any of the keys decodes to an entirely unset configuration |
| EventConfigurations.EventConfiguration.FromJSON | src/models/ems/EventConfiguration.ts:45-58 | a fresh configuration equal to the decoding; the receiver is unchanged |
| EventConfigurations.EventConfiguration.SetEventType | src/models/ems/EventConfiguration.ts:64-66 | only the event type changes |
| EventConfigurations.EventConfiguration.SetPlayoffsConfig | src/models/ems/EventConfiguration.ts:72-74 | only the playoffs configuration changes |
| EventConfigurations.EventConfiguration.SetTeamIdentifier | src/models/ems/EventConfiguration.ts:80-82 | only the team identifier changes |
| EventConfigurations.EventConfiguration.SetRequiresTOA | src/models/ems/EventConfiguration.ts:88-90 | only the TOA flag changes |
| EventConfigurations.EventConfiguration.SetTeamsPerAlliance | src/models/ems/EventConfiguration.ts:96-98 | only the teams per alliance change |
| EventConfigurations.EventConfiguration.SetPostQualTeamsPerAlliance | src/models/ems/EventConfiguration.ts:104-106 | only the post-qualification teams per alliance change |
| EventConfigurations.EventConfiguration.SetAllianceCaptains | src/models/ems/EventConfiguration.ts:112-114 | only the alliance captains change |
| EventConfigurations.EventConfiguration.SetRankingCutoff | src/models/ems/EventConfiguration.ts:120-122 | only the ranking cutoff changes |
| EventConfigurations.EventConfiguration.SetFieldsControlled | src/models/ems/EventConfiguration.ts:128-130 | only the controlled fields change |
| EventConfigurations.EventConfiguration.SetElimsFormat | src/models/ems/EventConfiguration.ts:136-138 | only the eliminations format changes |
| EventConfigurations.BuildPresets | src/models/ems/EventConfiguration.ts:141-175 | the four presets' fields; the rover preset equals the relic preset but for its event type and 0 alliance captains |
| JsonValues.OfInts | src/models/ems/EventConfiguration.ts:40 | an array of numbers is written element for element |
| JsonValues.ReadInts | src/models/ems/EventConfiguration.ts:55 | an array reads as numbers exactly when all its elements are numbers, element for element |
| JsonValues.IntArrayRoundTrip | src/models/ems/EventConfiguration.ts:40 | a written array of numbers reads back unchanged |
| MatchParticipants.MatchParticipant.constructor | src/models/ems/MatchParticipant.ts:35-45 | the defaults: empty keys, the test team key -1, station -1, no card, all flags false |
| MatchParticipants.Encode | src/models/ems/MatchParticipant.ts:47-61 | each flag is written as 0 or 1, and as 1 exactly when it is set |
| MatchParticipants.Decode | src/models/ems/MatchParticipant.ts:63-73 | each flag is set exactly when its value is the number 1; the surrogate flag is read from `surrogated` |
| MatchParticipants.RoundTrip | src/models/ems/MatchParticipant.ts:47-73 | decoding the encoding keeps every scalar field except the surrogate flag, which comes back false |
| MatchParticipants.SurrogateLost | src/models/ems/MatchParticipant.ts:55 | a surrogate participant does not survive the round trip |
| MatchParticipants.MatchParticipant.FromJSON | src/models/ems/MatchParticipant.ts:63-73 | a fresh participant equal to the decoding; the receiver is unchanged |
| MatchParticipants.AllianceRankFromKey | src/models/ems/MatchParticipant.ts:87-94 | 0 for an undefined key; otherwise a non-negative rank |
| MatchParticipants.AllianceRankOfKey | src/models/ems/MatchParticipant.ts:91-92 | a key `<a>-<b>-<c>-A<rank>` is well formed and yields `rank` |
| Text.Split | src/models/ems/MatchParticipant.ts:91 | at least one piece, none containing the separator |
| Text.SplitJoin | src/models/ems/MatchParticipant.ts:91 | splitting pieces joined by the separator gives the pieces back |
| Text.RemoveFirst | src/models/ems/MatchParticipant.ts:92 | unchanged without the character, one character shorter with it |
| Text.RemoveFirstAt | src/models/ems/MatchParticipant.ts:92 | exactly the first occurrence is removed |
| Text.ParseDecimal | src/models/ems/MatchParticipant.ts:92 | a string of `n` decimal digits denotes a number below `10^n` |
| Text.ParseNatToDecimal | src/models/ems/MatchParticipant.ts:92 | parsing a printed natural number gives it back |
| Text.IntToDecimal | src/providers/FGCProvider.ts:164 | a non-empty string of digits and an optional leading `-`, present exactly for negative numbers |
| Text.ParseIntToDecimal | src/providers/FGCProvider.ts:164 | parsing a printed integer gives it back |
| MatchConfigurations.MatchConfiguration.constructor | src/models/ems/MatchConfiguration.ts:11-17 | delay 0, auto 30, transition 0, tele 120, end 30, total unset |
| MatchConfigurations.Set | src/models/ems/MatchConfiguration.ts:43-80 | a setter writes its phase and keeps the others; delay, auto and tele make the total up to date; transition and end keep the total |
| MatchConfigurations.MatchConfiguration.SetDelayTime | src/models/ems/MatchConfiguration.ts:43-46 | the new state is `Set` of the old one for the delay |
| MatchConfigurations.MatchConfiguration.SetAutoTime | src/models/ems/MatchConfiguration.ts:52-55 | the new state is `Set` of the old one for the autonomous phase |
| MatchConfigurations.MatchConfiguration.SetTransitionTime | src/models/ems/MatchConfiguration.ts:61-63 | the new state is `Set` of the old one for the transition |
| MatchConfigurations.MatchConfiguration.SetTeleTime | src/models/ems/MatchConfiguration.ts:69-72 | the new state is `Set` of the old one for the teleoperated phase |
| MatchConfigurations.MatchConfiguration.SetEndTime | src/models/ems/MatchConfiguration.ts:78-80 | the new state is `Set` of the old one for the end phase |
| MatchConfigurations.EndKeepsConsistent | src/models/ems/MatchConfiguration.ts:78-80 | setting the end phase keeps an up-to-date total |
| MatchConfigurations.TransitionStalesTotal | src/models/ems/MatchConfiguration.ts:61-63 | changing the transition of an up-to-date configuration leaves its total stale |
| MatchConfigurations.ConsistentAfterSteps | src/models/ems/MatchConfiguration.ts:43-80 | after any setter sequence in which only end setters follow the last recomputing setter, the total is up to date |
| MatchConfigurations.OrZero | src/models/ems/MatchConfiguration.ts:31-35 | a number reads as itself; any other value reads as 0 |
| MatchConfigurations.Encode | src/models/ems/MatchConfiguration.ts:19-27 | exactly the five phase keys, all numbers; the total is not written |
| MatchConfigurations.Decode | src/models/ems/MatchConfiguration.ts:29-37 | each phase is its key's number or 0, and the total is up to date |
| MatchConfigurations.RoundTrip | src/models/ems/MatchConfiguration.ts:19-37 | decoding the encoding keeps the five phases and gives the total as their play time |
| MatchConfigurations.MatchConfiguration.FromJSON | src/models/ems/MatchConfiguration.ts:29-37 | a fresh configuration built through the setters in source order, equal to the decoding; the receiver is unchanged |
| MatchConfigurations.BuildConfigs | src/models/ems/MatchConfiguration.ts:87-93 | `FTC_CONFIG` is the default with the total unset; `FGC_CONFIG` has auto 0, tele 150, end 30 and an up-to-date total of 150 |

## Left out

- The HTTP transport, the promises and the 5000 ms timeout are not modelled. Each request's outcome is a `TransportOutcome` parameter, and `Post`/`Put` return the request they would hand over.
- The singleton `getInstance`, the private constructor and the module's default export are left out. They are process-global plumbing; the provider is a plain object built by its constructor.
- `ping` is left out: it is `get("ping")` followed by JavaScript's string coercion of the data, and that coercion is not modelled.
- `HttpError`, `Event`, `Team`, `Ranking`, `Match`, `MatchDetails` and `IPostableObject` are not part of this model.
  - `HttpError` is a three-field datatype.
  - Deserialisation is a function parameter of `GetEvent`/`GetTeams`, and serialisation is a parameter of `Post`/`Put`.
  - `MatchRecord` stands for a match or a match-details record: its key and its JSON.
- The `team` and `team_rank` handling of `MatchParticipant` is not modelled. This covers the keys in `toJSON`, the guarded `fromJSON` calls in `fromJSON`, and the two fields. It depends on `Team` and `Ranking`.
- The getters and setters of `MatchParticipant` only read and write their field, so the model accesses the fields directly.
- `delete` goes on to call the missing transport after its rejection. The promise is already rejected by then, so only that rejection is modelled.
- JavaScript number semantics are not modelled: numbers are mathematical integers, with no floats, no NaN and no 53-bit limits.
- A JSON value of another type than a field's declared type, `null` included, is read as unset (`ReadString`, `ReadInt`, `ReadBool`, `ReadIntArray`). The source would store the value as it is.
- MatchParticipants.Decode reads a `null` alliance key as undefined, so `AllianceRankFromKey` then gives 0. The source stores `null`, and `getAllianceRankFromKey` throws a TypeError on it, since `typeof null` is not `"undefined"`.
- EventConfigurations.Decode requires an object-like argument: the source's `fromJSON` throws a TypeError on `null` or `undefined`, and that throw is not modelled.
- EventConfigurations.EventConfiguration.FromJSON requires an object-like argument; the TypeError on `null` or `undefined` is not modelled.
- MatchParticipants.Decode requires an object-like argument; the TypeError on `null` or `undefined` is not modelled.
- MatchParticipants.MatchParticipant.FromJSON requires an object-like argument; the TypeError on `null` or `undefined` is not modelled.
- MatchConfigurations.Decode requires an object-like argument; the TypeError on `null` or `undefined` is not modelled.
- MatchConfigurations.MatchConfiguration.FromJSON requires an object-like argument; the TypeError on `null` or `undefined` is not modelled.
- MatchConfigurations.OrZero reads every value that is not a number as 0. The source's `|| 0` keeps truthy non-numbers such as non-empty strings.
- MatchParticipants.AllianceRankFromKey requires a defined key to have at least four `-` segments, and its fourth segment without the first `A` to be decimal digits. Outside that, the source throws on a missing segment or returns `parseInt`'s NaN or partial-prefix result.
- FgcProviders.FgcProvider.Get compares `length > 0` only when `length` is a number. JavaScript's coercion of a string or boolean `length` property of an object (`"2" > 0`, `true > 0`) is not modelled; such data is rejected with `ERR_NO_DATA`.
- FgcProviders.FgcProvider.Get and FgcProviders.FgcProvider.Delete: the request option `{data: {}}` that `get` and `delete` send is not modelled.
- FgcProviders.FgcProvider.Get: a null response body is passed to the failure handler with V8's TypeError message. The wording of that message is engine-specific.
- Text.RemoveFirst states its length, not that the result is a permutation of the input minus one character. `RemoveFirstAt` states the exact result instead.
