# denon-mqtt-ha publisher, modelled in Dafny

This project models the `MqttHassPublisher` class of denon-mqtt-ha
(`src/MqttHassPublisher.ts`). The class announces Denon receivers to Home
Assistant over MQTT. For every zone of every receiver it does two things:

- It builds a device-discovery payload and publishes it to
  `{hass prefix}/device/{receiver id}_{zone id}/config`. The payload's `cmps`
  dictionary holds one entity per template of the catalog
  `hass-mqtt-config.json`, walked as switches, buttons, sensors, fans, then
  selects.
- It appends a universal media-player block to the Home Assistant
  configuration file.

`start` truncates that file, runs `publish` for every receiver, and
disconnects from MQTT.

The model follows the source's structure:

| File | What it holds |
|---|---|
| `js_record.dfy` | A JavaScript object used as a dictionary: an ordered property list with JavaScript's assignment order. |
| `decimal.dfy` | `parseInt` on digit strings and `${n}` formatting. |
| `receiver_config.dfy` | The receiver and zone records. |
| `discovery.dfy` | `getZoneId`, the topics, the writes `addEntityConfig` makes into a template (`Augment`), the record it stores (`Component`), and the five entity loops (`FillKind`, `BuildComponents`). These are pure definitions. |
| `zone_payload.dfy` | One zone's topic and payload (`BuildZone`). |
| `media_player.dfy` | The text of the media-player block, as literal pieces and holes. |
| `io.dfy` | The MQTT client and the file system as one object, `Io.Host`. It records every publish, read, write, append and disconnect in a trace. |
| `publisher.dfy` | The class `MqttHassPublisher`. Its methods are imperative loops and calls, as in the source, and each is proved against a specification function of the trace it leaves and of the outcome it returns. Two in-place updates become returned values: `addEntityConfig` writes into `cmps` and into the template's `entity`, and `AddEntityConfig` instead returns the new `cmps` and the updated template, which `AddKind` threads through its loop and stores back into the catalog it carries from zone to zone. |
| `run.dfy` | What a `publish` call and a whole `start` run leave behind. |
| `publisher_tests.dfy` | The scenarios of `src/MqttHassPublisher.spec.ts`. |

Two behaviours of the code shape the model:

- **Templates are mutated in place.** `addEntityConfig` writes the fan
  topics, the select options, the mute template and the refresh payload into
  the template's own `entity` object (`src/MqttHassPublisher.ts:148-158`),
  and then spreads that object into the stored record. The model carries the
  mutated catalog from zone to zone. `Run.MutationNeverShows` proves the
  mutation is never observable: every key written is overwritten by the next
  zone before it is read.
- **Select options are read by position.** `addEntityConfig` reads
  `receiver.zones[zone - 1]` (`src/MqttHassPublisher.ts:152`), the zone at
  position `index` of the list. That element may be missing, for example
  zone 3 of a receiver that lists two zones. Reading `sources` from it then
  throws a `TypeError`, which rejects the `publish` call. `Discovery.Augment`
  reads by position, and the error is `Discovery.Error.MissingZone`.

## Model

| member | source | states |
|---|---|---|
| Decimal.NatToString | src/MqttHassPublisher.ts:214 | `${n}` gives a canonical digit string that parses back to n |
| Decimal.ParsePositive | src/MqttHassPublisher.ts:92 | a digit string without a leading zero parses to a positive number |
| Decimal.CanonicalRoundTrip | src/MqttHassPublisher.ts:92-93 | formatting the parsed value of a canonical digit string gives that string back |
| Discovery.DeviceId | src/MqttHassPublisher.ts:94 | the definition `{receiver id}_{zone id}`; `ZonePayload.ZoneTopicsDistinct` states that distinct zone numbers get distinct device ids |
| Discovery.StateTopic | src/MqttHassPublisher.ts:112 | the definition `{mqtt prefix}/{receiver id}/{zone id}/state`; `ZonePayload.BuildZoneShape` and `Discovery.FanEntryTopics` state where it is used |
| Discovery.CommandTopic | src/MqttHassPublisher.ts:113 | the definition `{mqtt prefix}/{receiver id}/{zone id}/command`; `ZonePayload.BuildZoneShape` and `Discovery.FanEntryTopics` state where it is used |
| Discovery.AvailabilityTopic | src/MqttHassPublisher.ts:107 | the definition, with `main_zone` written out; `ZonePayload.AvailabilityIsMainZoneState` states what it is |
| Discovery.CompositeId | src/MqttHassPublisher.ts:146 | the definition `{receiver id}_{zone id}_{template id}`; `Discovery.FillKindKeys` and `Discovery.BuildComponentsKeys` state that these are the keys of `cmps` |
| Discovery.MuteToggleTemplate | src/MqttHassPublisher.ts:154-155 | the definition of the mute command template; `Discovery.MuteToggleEntry` states which entity carries it |
| Discovery.ZoneId | src/MqttHassPublisher.ts:213-215 | the id is `main_zone` exactly for zone 1; any other zone n gets `zone` followed by digits that read back as n |
| Discovery.ZoneIdInjective | src/MqttHassPublisher.ts:213-215 | two zones with the same zone id are the same zone |
| Discovery.Augment | src/MqttHassPublisher.ts:148-158 | the writes into a template never change its name or id, so its composite id is fixed before the writes; the values written are stated by `Discovery.FanEntryTopics`, `Discovery.SelectEntryOptions`, `Discovery.MuteToggleEntry` and `Discovery.RefreshEntry` |
| Discovery.AugmentKeepsOthers | src/MqttHassPublisher.ts:148-158 | augmenting leaves every key outside the kind's written keys (the two percentage topics for a fan, `options` for a select, `command_template` for `mute_toggle`, `press_payload` for `refresh`, none otherwise) as the template had it |
| Discovery.AugmentWrites | src/MqttHassPublisher.ts:148-157 | a fan template always augments, with the zone's command and state topics as its percentage topics; a select augments iff a zone is listed at position `zone`, with that zone's sources as `options`; any other template augments, with the zone's mute template as `command_template` when its id is `mute_toggle` and `REFRESH` as `press_payload` when its id is `refresh` |
| Discovery.FanEntryTopics | src/MqttHassPublisher.ts:148-150 | a fan entity always exists, and its `percentage_command_topic` and `percentage_state_topic` are the zone's command and state topics |
| Discovery.SelectEntryOptions | src/MqttHassPublisher.ts:151-152 | a select entity exists iff the receiver lists a zone at position `zone`, and its `options` are that listed zone's sources |
| Discovery.MuteToggleEntry | src/MqttHassPublisher.ts:153-155 | a switch, button or sensor template with id `mute_toggle` gets the zone's mute `command_template` |
| Discovery.RefreshEntry | src/MqttHassPublisher.ts:156-157 | a switch, button or sensor template with id `refresh` gets `press_payload` `REFRESH` |
| Discovery.EntryCopiesTemplate | src/MqttHassPublisher.ts:148-166 | every key of a stored entity other than the four common fields and the kind's written keys is the template's own; so `command_template` is added only for `mute_toggle` and `press_payload` only for `refresh`, neither for a fan or a select |
| Discovery.Component | src/MqttHassPublisher.ts:160-166 | the definition of the stored record; `Discovery.ComponentFields`, `Discovery.ComponentCopiesTemplate` and `Discovery.ComponentKeyOrder` state what it holds |
| Discovery.AddEntity | src/MqttHassPublisher.ts:144-167 | the definition of one `addEntityConfig` call as a value; `Publisher.MqttHassPublisher.AddEntityConfig` is proved to return it |
| Discovery.ComponentFields | src/MqttHassPublisher.ts:160-166 | the stored record has name `{compName} {template name}`, `p` the kind, `unique_id` the composite id and `default_entity_id` `{kind}.{composite id}`, whatever the template holds under those keys |
| Discovery.ComponentCopiesTemplate | src/MqttHassPublisher.ts:160-161 | every other template field is copied unchanged |
| Discovery.ComponentKeyOrder | src/MqttHassPublisher.ts:160-166 | the template's fields keep their order at the head of the stored record |
| Discovery.AugmentEach | src/MqttHassPublisher.ts:116-130 | a walk that succeeds augments every template, one for one, in catalog order |
| Discovery.AugmentEachStops | src/MqttHassPublisher.ts:116-130 | the first template that throws ends the walk with its error |
| Discovery.AugmentedKeys | src/MqttHassPublisher.ts:144-146 | the keys of the augmented templates are the composite ids of the templates as read |
| Discovery.AugmentTwice | src/MqttHassPublisher.ts:148-158 | augmenting an already augmented template for a second zone gives the same result as augmenting the pristine template for that zone |
| Discovery.FillKindOnAugmented | src/MqttHassPublisher.ts:116-130 | an entity loop over templates left behind by an earlier zone gives the same result as one over the templates as read |
| Discovery.MutationInvisible | src/MqttHassPublisher.ts:144-158 | the catalog one zone leaves behind builds every later zone's `cmps` exactly as the catalog it read |
| Discovery.AugmentEachFails | src/MqttHassPublisher.ts:151-152 | a kind's walk fails iff it is a select walk over at least one template in a zone with no list element, and then with `MissingZone(zone)` |
| Discovery.FillKind | src/MqttHassPublisher.ts:116-130 | the definition of one kind's loop as a value; `Publisher.MqttHassPublisher.AddKind` is proved to return it |
| Discovery.BuildComponents | src/MqttHassPublisher.ts:116-130 | the definition of the five loops as a value; `Publisher.MqttHassPublisher.CollectComponents` is proved to return it |
| Discovery.FillKindFails | src/MqttHassPublisher.ts:128-130 | the same condition and error for one kind's loop |
| Discovery.BuildComponentsFails | src/MqttHassPublisher.ts:116-130 | the five loops fail iff the catalog has selects and the zone has no list element, with `MissingZone(zone)` |
| Discovery.FillKindKeys | src/MqttHassPublisher.ts:116-130 | one kind's loop appends one key per template, in template order, after the existing keys |
| Discovery.FillKindKeeps | src/MqttHassPublisher.ts:116-130 | one kind's loop leaves every key it does not write unchanged |
| Discovery.FillKindDefined | src/MqttHassPublisher.ts:116-130 | after one kind's loop a key is defined iff it was before or it is the composite id of one of the kind's templates, for any catalog |
| Discovery.FillKindNamesKeys | src/MqttHassPublisher.ts:116-130 | one kind's loop keeps every record naming its own key (`unique_id` the key, `default_entity_id` its `p`, a dot and the key), for any catalog |
| Discovery.BuildComponentsDefined | src/MqttHassPublisher.ts:116-130 | for any catalog, repeated ids included, `cmps` defines exactly the composite ids of the catalog's templates |
| Discovery.BuildComponentsNamesKeys | src/MqttHassPublisher.ts:160-166 | for any catalog, repeated ids included, every record of `cmps` has `unique_id` its key and `default_entity_id` its `p`, a dot and its key |
| Discovery.BuildComponentsAbsent | src/MqttHassPublisher.ts:146-166 | for any catalog, a key `{device id}_{x}` for an x that is no template's id is absent from `cmps` |
| Discovery.FillKindEntries | src/MqttHassPublisher.ts:116-130 | with distinct ids, each template ends up under its composite id as its augmented record |
| Discovery.BuildComponentsKeys | src/MqttHassPublisher.ts:116-130 | with unique template ids, `cmps` has exactly one key per template, in the order switches, buttons, sensors, fans, selects |
| Discovery.BuildComponentsEntries | src/MqttHassPublisher.ts:116-130 | with unique template ids, every template's key holds that template augmented for the zone under the four common fields |
| Discovery.EntryDefaultId | src/MqttHassPublisher.ts:165 | the stored record's `default_entity_id` is `{kind}.{composite id}` |
| Discovery.ComponentOfTemplate | src/MqttHassPublisher.ts:160-166 | with unique template ids, every template is present in `cmps` under its composite id, with `default_entity_id` `{kind}.{composite id}` |
| Discovery.FanTopicsInCmps | src/MqttHassPublisher.ts:125-127 | with unique template ids, every fan of the catalog is stored with the zone's command and state topics as its percentage topics |
| Discovery.SelectZoneListed | src/MqttHassPublisher.ts:128-130 | a zone whose loops succeed over at least one select is listed at position `zone` |
| Discovery.SelectOptionsInCmps | src/MqttHassPublisher.ts:128-130 | with unique template ids, every select of the catalog is stored with the sources of the zone listed at position `zone` as its options |
| Discovery.ContentsOfKind | src/MqttHassPublisher.ts:116-130 | with distinct composite ids, the j-th template of any kind is stored as its augmented record |
| Discovery.ContentsOfSwitch | src/MqttHassPublisher.ts:116-118 | the same for the j-th switch, past the four later loops |
| Discovery.ContentsOfButton | src/MqttHassPublisher.ts:119-121 | the same for the j-th button |
| Discovery.ContentsOfSensor | src/MqttHassPublisher.ts:122-124 | the same for the j-th sensor |
| Discovery.ContentsOfFan | src/MqttHassPublisher.ts:125-127 | the same for the j-th fan |
| Discovery.ContentsOfSelect | src/MqttHassPublisher.ts:128-130 | the same for the j-th select |
| JsRecord.GetIffKey | src/MqttHassPublisher.ts:160 | a property reads defined iff its key is among the object's keys |
| JsRecord.Assign | src/MqttHassPublisher.ts:160 | after `o[k] = v`, k reads v and every other key reads as before |
| JsRecord.AssignKeys | src/MqttHassPublisher.ts:149 | an existing key keeps its place; a new key is added last |
| JsRecord.AssignTwice | src/MqttHassPublisher.ts:149-150 | assigning a key twice leaves only the second value |
| JsRecord.AssignExistingCommutes | src/MqttHassPublisher.ts:149-150 | assignments to two different keys, one of them existing, commute |
| JsRecord.AssignKeepsKeyOrder | src/MqttHassPublisher.ts:160-166 | an assignment keeps the existing keys in order at the head |
| JsRecord.AssignEachKeys | src/MqttHassPublisher.ts:116-118 | assigning distinct new keys in order appends them in that order |
| JsRecord.AssignEachOther | src/MqttHassPublisher.ts:116-118 | keys that are not assigned keep their values |
| JsRecord.AssignEachGet | src/MqttHassPublisher.ts:116-118 | with distinct keys, each item's key holds that item's value |
| JsRecord.AssignEachDefined | src/MqttHassPublisher.ts:116-118 | after the loop a key is defined iff it was before or some item maps to it, whatever the keys |
| JsRecord.AssignEachAllEntries | src/MqttHassPublisher.ts:116-118 | a property that holds of every entry before and of every stored item holds of every entry after, whatever the keys |
| ZonePayload.CompName | src/MqttHassPublisher.ts:96 | the definition: the zone name alone with short names, else `{receiver name} {zone name}` |
| ZonePayload.BuildZone | src/MqttHassPublisher.ts:91-132 | the definition of one zone's topic and payload; `ZonePayload.BuildZoneShape`, `ZonePayload.BuildZoneFails` and `ZonePayload.BuildZoneCmps` state what it gives |
| ZonePayload.BuildZoneShape | src/MqttHassPublisher.ts:91-114 | the topic is the discovery topic of `dev.ids`; `dev` is `({receiver id}_{zone id}, {receiver name} {zone name})`; availability is the main zone's state topic; state and command topics are the zone's own |
| ZonePayload.BuildZoneFails | src/MqttHassPublisher.ts:116-130 | a zone fails iff the catalog has selects and the receiver has no zone at position `index`, with `MissingZone(index)` |
| ZonePayload.ListedZoneBuilds | src/MqttHassPublisher.ts:116-130 | a zone whose number is a position of the receiver's zone list builds, whatever the catalog |
| ZonePayload.BuildZoneCmps | src/MqttHassPublisher.ts:111-130 | with unique template ids, the payload's `cmps` keys are the composite ids in catalog order, each holding its template's record |
| ZonePayload.ZoneEntityOfTemplate | src/MqttHassPublisher.ts:160-166 | with unique template ids, every template is published under `{dev.ids}_{template id}` with `default_entity_id` `{kind}.{dev.ids}_{template id}` |
| ZonePayload.ZoneEntityAbsent | src/MqttHassPublisher.ts:160-166 | for any catalog, a key `{dev.ids}_{x}` for an x that is no template's id is absent from the payload |
| ZonePayload.ZoneCmpsNamed | src/MqttHassPublisher.ts:116-166 | for any catalog, repeated ids included, the payload defines exactly the keys `{dev.ids}_{template id}`, and every entity's `unique_id` is its key and its `default_entity_id` its `p`, a dot and its key |
| ZonePayload.ZoneFanTopics | src/MqttHassPublisher.ts:125-127 | with unique template ids, every fan entity of the payload carries the payload's own `command_topic` and `state_topic` as its percentage topics |
| ZonePayload.ZoneSelectOptions | src/MqttHassPublisher.ts:128-130 | with unique template ids, a zone that builds with selects has a listed zone at position `index`, and every select entity offers that zone's sources |
| ZonePayload.BuildZoneIndistinguishable | src/MqttHassPublisher.ts:116-130 | catalogs that no zone can tell apart give every zone the same topic and payload |
| ZonePayload.AvailabilityIsMainZoneState | src/MqttHassPublisher.ts:106-112 | availability is the main zone's state topic for every zone, and equals the zone's own state topic iff the zone is the main zone |
| ZonePayload.ZoneTopicsDistinct | src/MqttHassPublisher.ts:93-94 | distinct zone numbers never share a device id or a discovery topic |
| ZonePayload.SameNumberSameTopic | src/MqttHassPublisher.ts:91-94 | two zone entries whose indices parse to the same number publish under the same device id to the same topic |
| ZonePayload.LeadingZeroSameNumber | src/MqttHassPublisher.ts:91 | the indices `01` and `1` both parse to zone 1 |
| ZonePayload.TestMainDeviceId | src/MqttHassPublisher.spec.ts:109 | the test receiver's main device id is `avr_id_main_zone` |
| ZonePayload.TestMainDeviceName | src/MqttHassPublisher.spec.ts:110 | its main device name is `AVR Main` |
| ZonePayload.TestMainTopic | src/MqttHassPublisher.spec.ts:108 | its main discovery topic is `homeassistant/device/avr_id_main_zone/config` |
| ZonePayload.TestMainStateTopic | src/MqttHassPublisher.spec.ts:111 | its main state topic is `denon/avr_id/main_zone/state` |
| ZonePayload.TestMainCommandTopic | src/MqttHassPublisher.spec.ts:112 | its main command topic is `denon/avr_id/main_zone/command` |
| ZonePayload.TestMainZone | src/MqttHassPublisher.spec.ts:104-112 | for any catalog, the main zone builds, with the topic, device and state and command topics the test expects |
| ZonePayload.TestBothZonesPublish | src/MqttHassPublisher.spec.ts:104-106 | for any catalog, both zones of the test receiver build |
| MediaPlayer.MediaPlayerConfig | src/MqttHassPublisher.ts:169-211 | the definition: the template literal, as the constant `Block` of literal runs, holes and references, rendered with the zone's name and id; `MediaPlayer.BlockFraming` and `MediaPlayer.BlockMentions` state its shape |
| MediaPlayer.BlockRefsAre | src/MqttHassPublisher.ts:172-209 | the block refers to exactly eight entities: the power and mute switches, the volume-up, volume-down and mute-toggle buttons, the volume fan, the volume-percent sensor and the source select |
| MediaPlayer.FirstTextOpensItem | src/MqttHassPublisher.ts:172 | the block's first text opens a YAML list item |
| MediaPlayer.LastTextEndsLine | src/MqttHassPublisher.ts:209 | the block's last text ends with a newline |
| MediaPlayer.BlockFraming | src/MqttHassPublisher.ts:170-210 | every block starts with `  - ` and ends with a newline, so consecutive appends stay separate list items |
| MediaPlayer.BlockMentions | src/MqttHassPublisher.ts:172-209 | each reference of the block stands in its text as `{kind}.{id}_{suffix}` |
| MediaPlayer.BlockReferenceResolves | src/MqttHassPublisher.ts:174-208 | with unique template ids, a reference whose suffix is the id of a template of the expected kind names the `default_entity_id` of an entity of that zone's payload |
| MediaPlayer.BlockReferenceDangles | src/MqttHassPublisher.ts:174-208 | for any catalog, a reference whose suffix is no template's id names no entity of the zone's payload |
| Io.Host.WriteFile | src/MqttHassPublisher.ts:69 | records one write of the text to the file |
| Io.Host.AppendFile | src/MqttHassPublisher.ts:170 | records one append of the text to the file |
| Io.Host.ReadCatalog | src/MqttHassPublisher.ts:88-89 | records one read of `hass-mqtt-config.json` and returns the parsed catalog, or none when parsing throws |
| Io.Host.PublishAsync | src/MqttHassPublisher.ts:136 | records one publish of the payload to the topic |
| Io.Host.EndAsync | src/MqttHassPublisher.ts:77 | records the disconnect |
| Io.AppendedConcat | src/MqttHassPublisher.ts:170 | the text appended by two runs of effects is the first run's text followed by the second's |
| Io.FileTextAfterWrite | src/MqttHassPublisher.ts:69 | a file written once and then only appended to holds the written text followed by every appended text, in order |
| Io.CountsConcat | src/MqttHassPublisher.ts:136 | publishes, topics, appends and reads of two runs of effects add up |
| Publisher.ZonesTrace | src/MqttHassPublisher.ts:91-141 | the definition of the zone loop's effects; `Run.ZonesTraceContents` and `Run.ZoneEffectsCounts` state them |
| Publisher.PublishTrace | src/MqttHassPublisher.ts:86-142 | the definition of one `publish` call's effects; `Run.PublishTraceCounts` and `Run.PublishTraceContents` state them |
| Publisher.FirstFailure | src/MqttHassPublisher.ts:75 | the definition of what `Promise.all` settles to; `Publisher.AllStep` states it receiver by receiver |
| Publisher.RunTrace | src/MqttHassPublisher.ts:69-77 | the definition of `start`'s effects; `Run.RunLeavesFile` and `Publisher.RunTraceDone` state them |
| Publisher.ZonesStep | src/MqttHassPublisher.ts:91-141 | a zone that fails ends the loop with its error and no effects; a zone that builds publishes, appends and hands its catalog to the rest |
| Publisher.ZonesLoopStep | src/MqttHassPublisher.ts:91-141 | one pass keeps the effects done plus the effects left equal to the loop's effects, and keeps the outcome |
| Publisher.ZonesLoopStepAt | src/MqttHassPublisher.ts:91-141 | the same for the pass at loop index i |
| Publisher.AllStep | src/MqttHassPublisher.ts:75 | the receivers' calls run one receiver after the other, and the first rejection wins |
| Publisher.AllLoopStepAt | src/MqttHassPublisher.ts:75 | one receiver's call keeps the effects done plus the effects left equal to the run's, and keeps the first rejection |
| Publisher.RunTraceDone | src/MqttHassPublisher.ts:75-77 | once every receiver has published, the effects are the run's, short of the disconnect, which happens only when no call rejected |
| Publisher.MqttHassPublisher.constructor | src/MqttHassPublisher.ts:47-52 | stores the receiver, the MQTT and Home Assistant settings and the client |
| Publisher.MqttHassPublisher.Create | src/MqttHassPublisher.ts:82-84 | returns a new publisher holding the given settings |
| Publisher.MqttHassPublisher.AddEntityConfig | src/MqttHassPublisher.ts:144-167 | the method returns what `Discovery.AddEntity` specifies: the template augmented and stored under its composite id, or the `MissingZone` error; the values it writes are those of `Discovery.FanEntryTopics`, `Discovery.SelectEntryOptions`, `Discovery.MuteToggleEntry` and `Discovery.RefreshEntry` |
| Publisher.MqttHassPublisher.AddKind | src/MqttHassPublisher.ts:116-118 | the interleaved loop of `addEntityConfig` calls returns what `Discovery.FillKind` specifies |
| Publisher.MqttHassPublisher.CollectComponents | src/MqttHassPublisher.ts:116-130 | the five loops return `Discovery.BuildComponents`: `cmps` and the catalog as the loops leave it |
| Publisher.MqttHassPublisher.AppendMediaPlayerConfig | src/MqttHassPublisher.ts:169-211 | appends exactly the zone's block to the configured file and does nothing else |
| Publisher.MqttHassPublisher.PublishZone | src/MqttHassPublisher.ts:91-141 | a zone that fails returns its error with no effect; otherwise it publishes the zone's payload to its topic, appends its block, and returns the catalog as left |
| Publisher.MqttHassPublisher.Publish | src/MqttHassPublisher.ts:86-142 | leaves `PublishTrace` (one catalog read, then the zone loop) and returns `PublishOutcome` |
| Publisher.MqttHassPublisher.Start | src/MqttHassPublisher.ts:54-80 | leaves `RunTrace` (truncate, every receiver's publish, disconnect when all resolve) and returns the first rejection in receiver order |
| Run.ZoneCatalogInvisible | src/MqttHassPublisher.ts:144-158 | the catalog a zone leaves behind builds every later zone exactly as the catalog it started from |
| Run.MutationNeverShows | src/MqttHassPublisher.ts:116-158 | the zone loop over the mutated catalog publishes and appends exactly what it would with a fresh catalog for every zone |
| Run.ZonesOutcomePass | src/MqttHassPublisher.ts:91-141 | the loop succeeds iff every zone builds from the catalog as read; a failure is the error of some zone |
| Run.PublishOutcomeIff | src/MqttHassPublisher.ts:86-152 | `publish` resolves iff the catalog parses and either it has no selects or every zone's index is a position in the zone list; otherwise it rejects with the parse error or with the `MissingZone` error of an out-of-range zone |
| Run.ZoneEffectsCounts | src/MqttHassPublisher.ts:132-140 | a built zone publishes once, to its topic, and appends its block once, and nothing else |
| Run.ZonesTraceIsPairs | src/MqttHassPublisher.ts:91-141 | the loop's effects are those of the leading zones that build, in zone order |
| Run.BuiltComplete | src/MqttHassPublisher.ts:91-141 | the loop succeeds iff it builds every zone |
| Run.BuiltTopics | src/MqttHassPublisher.ts:132 | every built payload goes to its own zone's discovery topic |
| Run.PairsCounts | src/MqttHassPublisher.ts:136-140 | built zones publish and append once each and never read or truncate |
| Run.PairsAppended | src/MqttHassPublisher.ts:140 | built zones append their blocks in zone order |
| Run.PairsTopics | src/MqttHassPublisher.ts:136 | built zones publish to their payloads' topics in zone order |
| Run.PublishTraceCounts | src/MqttHassPublisher.ts:86-142 | a `publish` call reads the catalog once, never truncates, and appends one block per publish, at most one per zone |
| Run.ZonesTraceContents | src/MqttHassPublisher.ts:91-141 | a loop that succeeds publishes every zone to its discovery topic and appends every zone's block, in zone order |
| Run.PublishTraceContents | src/MqttHassPublisher.ts:86-142 | a `publish` call that resolves publishes every zone of the receiver to its topic and appends every block, in zone order |
| Run.AllPublishTraceCounts | src/MqttHassPublisher.ts:75 | all receivers' calls read the catalog once per receiver, never truncate, and append one block per publish |
| Run.AllPublishTraceContents | src/MqttHassPublisher.ts:75 | when no call rejects, there is one publish per zone, and the appended text is every zone's block, receiver by receiver |
| Run.TruncateThenAppend | src/MqttHassPublisher.ts:69 | truncating a file and then only appending to it leaves exactly the appended text, whatever it held before |
| Run.RunLeavesFile | src/MqttHassPublisher.ts:54-80 | after `start` the file holds exactly the appended blocks and the catalog was read once per receiver; when no call rejects it holds every zone's block, receiver by receiver, and one publish was made per zone |
| PublisherTests.TestStartPublishesEachReceiver | src/MqttHassPublisher.spec.ts:26-56 | `start` with the two test receivers calls `publish` (reads the catalog) twice, whatever the catalog |
| PublisherTests.TestStartTrace | src/MqttHassPublisher.spec.ts:26-56 | with a catalog that parses, the run truncates `media_player.yaml`, reads the catalog twice, disconnects, and leaves the file empty |
| PublisherTests.Zone2Id | src/MqttHassPublisher.ts:214 | zone 2's id is `zone2` |
| PublisherTests.TestReceiverValid | src/MqttHassPublisher.spec.ts:76-79 | the test receiver's zones are zone 1 and zone 2 |
| PublisherTests.TestPublishResolves | src/MqttHassPublisher.spec.ts:104 | `publish` on the test receiver resolves for any catalog that parses |
| PublisherTests.TestZoneTopics | src/MqttHassPublisher.spec.ts:108 | the discovery topics of the test receiver's zones are those of `avr_id_main_zone` and `avr_id_zone2` |
| PublisherTests.TestPublishBothZones | src/MqttHassPublisher.spec.ts:104-108 | `publish` makes two publishes, to the main zone's topic and then to zone 2's |

## Left out

- Connecting to the broker (`connectAsync`), the client's `error` handler and `process.exit`: this is transport and process control, not modelled. `Start` receives the connected client as a parameter.
- Console logging: it has no effect on the state the model tracks.
- `Promise.all` concurrency: `Start` runs the receivers' `publish` calls one after another. The model therefore does not capture the interleaving, across receivers, of publishes and appends. `Start` returns the first rejection in receiver order, where JavaScript settles on the first rejection in time.
- `fs.appendFile` is not awaited at `src/MqttHassPublisher.ts:170`. The model treats each append as done before the next zone starts. It captures neither a late completion, nor a reordering of blocks, nor a failed append.
- Failures of `writeFile`, `appendFile`, `publishAsync` and `endAsync` are not modelled. Only the catalog read can fail: reading and parsing `hass-mqtt-config.json` either yields a catalog or fails as a whole.
- `JSON.stringify` of the payload and `JSON.parse` of the catalog are not modelled. The trace records the payload as a structured value, and the catalog is already parsed.
- `parseInt` on zone indices that are not digit strings (signs, spaces, trailing letters, an empty string) is left out. `Publisher.MqttHassPublisher.Publish` and `Start` require every zone index to be a non-empty string of decimal digits.
- ZoneIndex: `parseInt` returns a double, so a zone index above 2^53 is rounded (`9007199254740993` reads as `9007199254740992`), and two such index strings can name the same zone. The model reads every digit string exactly, as an unbounded `nat`.
- Discovery.ZoneId: JavaScript prints a zone of 10^21 or more in exponent form (`zone1e+21`), where the model prints plain digits. The claim that the digits after `zone` read back as the zone holds in the source only below 10^21, and for indices above 2^53 only of the rounded zone number.
- Decimal.NatToString: models `${n}` on integers below 10^21 only; from 10^21 on JavaScript uses exponent form.
- ComponentOfTemplate: stated for catalogs with unique template ids. With a repeated id, the later template's entry replaces the earlier one in place, possibly under another kind. For every catalog the model proves only `Discovery.BuildComponentsDefined` and `Discovery.BuildComponentsNamesKeys`: the key is present and its record names it under its own `p`.
- ZoneEntityOfTemplate: stated for catalogs with unique template ids, for the same reason; `ZonePayload.ZoneCmpsNamed` is what holds for every catalog.
- BlockReferenceResolves: stated for catalogs with unique template ids, for the same reason; with a repeated id the reference may resolve to an entity of another kind.
- ZoneFanTopics: stated for catalogs with unique template ids, for the same reason; `Discovery.FanEntryTopics` states the values for every fan template.
- ZoneSelectOptions: stated for catalogs with unique template ids, for the same reason; `Discovery.SelectEntryOptions` states the options for every select template.
- FanTopicsInCmps: stated for catalogs with unique template ids, for the same reason as `ZoneFanTopics`.
- SelectOptionsInCmps: stated for catalogs with unique template ids, for the same reason as `ZoneSelectOptions`; `Discovery.SelectZoneListed` holds for every catalog.
- `Publisher.MqttHassPublisher.Publish`: its requirement on zone indices is stronger than the source's. The source accepts any string and may produce `NaN` ids.
- Object keys that look like array indices are ordered first by JavaScript. The model keeps plain insertion order for every key. This only matters for template fields or composite ids that are entirely digits.
- The catalog file `hass-mqtt-config.json` is assumed to be a different file from the Home Assistant configuration file that `start` truncates, and to stay unchanged during the run. `Io.Host` returns the same catalog on every read. If the two paths were the same, the truncation would empty the catalog, and every later `JSON.parse` would throw.
- `CliParser` and `entryPoint` (argument parsing and building the receiver list) are not part of this model.
