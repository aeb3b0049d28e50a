/** The `MqttHassPublisher` class: one receiver's zone loop (`publish`), the
    per-entity insertion (`addEntityConfig`), the media-player append
    (`appendMediaPlayerConfig`), and the run over all receivers (`start`)
    (src/MqttHassPublisher.ts). */
module Publisher {
  import opened Wrappers
  import opened Decimal
  import opened JsRecord
  import opened ReceiverConfig
  import opened Discovery
  import opened ZonePayload
  import opened MediaPlayer
  import opened Io

  /** Why a `publish` call rejects. */
  datatype PublishError = CatalogUnreadable | ZoneFailed(error: Error)

  /** Every zone index of the receiver is a string of decimal digits. */
  predicate ValidZones(rcv: ReceiverConfig) {
    DecimalIndices(rcv.zones)
  }

  predicate ValidReceivers(rs: seq<ReceiverConfig>) {
    forall i :: 0 <= i < |rs| ==> ValidZones(rs[i])
  }

  predicate DecimalIndices(zs: seq<ZoneConfig>) {
    forall i :: 0 <= i < |zs| ==> IsDecimal(zs[i].index)
  }

  lemma DecimalSuffix(zs: seq<ZoneConfig>, i: nat)
    requires DecimalIndices(zs) && i <= |zs|
    ensures DecimalIndices(zs[i..])
  {
    forall k | 0 <= k < |zs| - i
      ensures IsDecimal(zs[i..][k].index)
    {
      assert zs[i..][k] == zs[i + k];
    }
  }

  /** The block appended for zone `z`. */
  function ZoneBlock(rcv: ReceiverConfig, hass: HomeAssistantConfig, z: ZoneConfig): string
    requires IsDecimal(z.index)
  {
    MediaPlayerConfig(CompName(rcv, hass, z), DeviceId(rcv, ZoneIndex(z)), ZoneId(ZoneIndex(z)))
  }

  /** What one zone does once its payload is built: publish, then append. */
  function ZoneEffects(rcv: ReceiverConfig, hass: HomeAssistantConfig, z: ZoneConfig, d: ZoneDiscovery): seq<Effect>
    requires IsDecimal(z.index)
  {
    [Published(d.topic, d.payload), FileAppended(hass.configFile, ZoneBlock(rcv, hass, z))]
  }

  /** The effects of the zone loop over `zs`, each zone building from the
      catalog as the zone before it left it; a zone that throws ends the loop. */
  function ZonesTrace(rcv: ReceiverConfig, mqtt: MqttConfig, hass: HomeAssistantConfig, cat: EntitiesConfig,
                      zs: seq<ZoneConfig>): seq<Effect>
    requires DecimalIndices(zs)
    decreases |zs|
  {
    if zs == [] then []
    else
      match BuildZone(rcv, mqtt, hass, cat, zs[0])
      case Failure(_) => []
      case Success(d) => ZoneEffects(rcv, hass, zs[0], d) + ZonesTrace(rcv, mqtt, hass, d.catalog, zs[1..])
  }

  function ZonesOutcome(rcv: ReceiverConfig, mqtt: MqttConfig, hass: HomeAssistantConfig, cat: EntitiesConfig,
                        zs: seq<ZoneConfig>): Outcome<Error>
    requires DecimalIndices(zs)
    decreases |zs|
  {
    if zs == [] then Pass
    else
      match BuildZone(rcv, mqtt, hass, cat, zs[0])
      case Failure(e) => Fail(e)
      case Success(d) => ZonesOutcome(rcv, mqtt, hass, d.catalog, zs[1..])
  }

  /** The effects of one `publish` call. */
  function PublishTrace(rcv: ReceiverConfig, mqtt: MqttConfig, hass: HomeAssistantConfig, catalog: Option<EntitiesConfig>)
    : seq<Effect>
    requires ValidZones(rcv)
  {
    [FileRead(CatalogFile)] + if catalog.None? then [] else ZonesTrace(rcv, mqtt, hass, catalog.value, rcv.zones)
  }

  function PublishOutcome(rcv: ReceiverConfig, mqtt: MqttConfig, hass: HomeAssistantConfig, catalog: Option<EntitiesConfig>)
    : Outcome<PublishError>
    requires ValidZones(rcv)
  {
    match catalog
    case None => Fail(CatalogUnreadable)
    case Some(cat) =>
      match ZonesOutcome(rcv, mqtt, hass, cat, rcv.zones)
      case Pass => Pass
      case Fail(e) => Fail(ZoneFailed(e))
  }

  /** The effects of the `publish` calls of all receivers, in receiver order. */
  function AllPublishTrace(rs: seq<ReceiverConfig>, mqtt: MqttConfig, hass: HomeAssistantConfig, catalog: Option<EntitiesConfig>)
    : seq<Effect>
    requires ValidReceivers(rs)
    decreases |rs|
  {
    if rs == [] then [] else PublishTrace(rs[0], mqtt, hass, catalog) + AllPublishTrace(rs[1..], mqtt, hass, catalog)
  }

  /** What `Promise.all` over the `publish` calls settles to: the first
      rejection in receiver order, else success. */
  function FirstFailure(rs: seq<ReceiverConfig>, mqtt: MqttConfig, hass: HomeAssistantConfig, catalog: Option<EntitiesConfig>)
    : Outcome<PublishError>
    requires ValidReceivers(rs)
    decreases |rs|
  {
    if rs == [] then Pass
    else
      match PublishOutcome(rs[0], mqtt, hass, catalog)
      case Fail(e) => Fail(e)
      case Pass => FirstFailure(rs[1..], mqtt, hass, catalog)
  }

  /** The effects of `start`: truncate the media-player file, run every
      receiver's `publish`, and disconnect when all of them succeed. */
  function RunTrace(rs: seq<ReceiverConfig>, mqtt: MqttConfig, hass: HomeAssistantConfig, catalog: Option<EntitiesConfig>)
    : seq<Effect>
    requires ValidReceivers(rs)
  {
    [FileWritten(hass.configFile, "")] + AllPublishTrace(rs, mqtt, hass, catalog)
      + if FirstFailure(rs, mqtt, hass, catalog).Pass? then [Disconnected] else []
  }

  /** The zone loop, one zone at a time. */
  lemma ZonesStep(rcv: ReceiverConfig, mqtt: MqttConfig, hass: HomeAssistantConfig, cat: EntitiesConfig,
                  zs: seq<ZoneConfig>)
    requires DecimalIndices(zs) && zs != []
    ensures var b := BuildZone(rcv, mqtt, hass, cat, zs[0]);
      && (b.Failure? ==>
            ZonesTrace(rcv, mqtt, hass, cat, zs) == [] && ZonesOutcome(rcv, mqtt, hass, cat, zs) == Fail(b.error))
      && (b.Success? ==>
            && ZonesTrace(rcv, mqtt, hass, cat, zs)
               == ZoneEffects(rcv, hass, zs[0], b.value) + ZonesTrace(rcv, mqtt, hass, b.value.catalog, zs[1..])
            && ZonesOutcome(rcv, mqtt, hass, cat, zs) == ZonesOutcome(rcv, mqtt, hass, b.value.catalog, zs[1..]))
  {
  }

  /** One pass of the zone loop keeps what is left to do in step with what
      was done. */
  lemma ZonesLoopStep(rcv: ReceiverConfig, mqtt: MqttConfig, hass: HomeAssistantConfig, cat: EntitiesConfig,
                      zs: seq<ZoneConfig>, before: seq<Effect>, after: seq<Effect>, next: Result<EntitiesConfig, Error>)
    requires DecimalIndices(zs) && zs != [] && DecimalIndices(zs[1..])
    requires var b := BuildZone(rcv, mqtt, hass, cat, zs[0]);
      && (b.Failure? ==> next == Failure(b.error) && after == before)
      && (b.Success? ==> next == Success(b.value.catalog) && after == before + ZoneEffects(rcv, hass, zs[0], b.value))
    ensures next.Failure? ==>
      && after == before + ZonesTrace(rcv, mqtt, hass, cat, zs)
      && ZonesOutcome(rcv, mqtt, hass, cat, zs) == Fail(next.error)
    ensures next.Success? ==>
      && after + ZonesTrace(rcv, mqtt, hass, next.value, zs[1..]) == before + ZonesTrace(rcv, mqtt, hass, cat, zs)
      && ZonesOutcome(rcv, mqtt, hass, next.value, zs[1..]) == ZonesOutcome(rcv, mqtt, hass, cat, zs)
  {
    ZonesStep(rcv, mqtt, hass, cat, zs);
    var b := BuildZone(rcv, mqtt, hass, cat, zs[0]);
    if b.Success? {
      SeqAssoc(before, ZoneEffects(rcv, hass, zs[0], b.value), ZonesTrace(rcv, mqtt, hass, b.value.catalog, zs[1..]));
    } else {
      SeqEmptyRight(before);
    }
  }

  /** `ZonesLoopStep` for the pass over `zs[i]`, in terms of the loop index. */
  lemma ZonesLoopStepAt(rcv: ReceiverConfig, mqtt: MqttConfig, hass: HomeAssistantConfig, cat: EntitiesConfig,
                        zs: seq<ZoneConfig>, i: nat, before: seq<Effect>, after: seq<Effect>,
                        next: Result<EntitiesConfig, Error>)
    requires i < |zs| && DecimalIndices(zs[i..])
    requires var b := BuildZone(rcv, mqtt, hass, cat, zs[i]);
      && (b.Failure? ==> next == Failure(b.error) && after == before)
      && (b.Success? ==> next == Success(b.value.catalog) && after == before + ZoneEffects(rcv, hass, zs[i], b.value))
    ensures DecimalIndices(zs[i + 1..])
    ensures next.Failure? ==>
      && after + [] == before + ZonesTrace(rcv, mqtt, hass, cat, zs[i..])
      && ZonesOutcome(rcv, mqtt, hass, cat, zs[i..]) == Fail(next.error)
    ensures next.Success? ==>
      && after + ZonesTrace(rcv, mqtt, hass, next.value, zs[i + 1..]) == before + ZonesTrace(rcv, mqtt, hass, cat, zs[i..])
      && ZonesOutcome(rcv, mqtt, hass, next.value, zs[i + 1..]) == ZonesOutcome(rcv, mqtt, hass, cat, zs[i..])
  {
    assert zs[i..][0] == zs[i] && zs[i..][1..] == zs[i + 1..];
    DecimalSuffix(zs[i..], 1);
    ZonesLoopStep(rcv, mqtt, hass, cat, zs[i..], before, after, next);
    SeqEmptyRight(after);
  }

  /** The receivers' `publish` calls, one receiver at a time. */
  lemma AllStep(rs: seq<ReceiverConfig>, mqtt: MqttConfig, hass: HomeAssistantConfig, catalog: Option<EntitiesConfig>)
    requires ValidReceivers(rs) && rs != []
    ensures AllPublishTrace(rs, mqtt, hass, catalog)
      == PublishTrace(rs[0], mqtt, hass, catalog) + AllPublishTrace(rs[1..], mqtt, hass, catalog)
    ensures FirstFailure(rs, mqtt, hass, catalog)
      == if PublishOutcome(rs[0], mqtt, hass, catalog).Fail? then PublishOutcome(rs[0], mqtt, hass, catalog)
         else FirstFailure(rs[1..], mqtt, hass, catalog)
  {
  }

  lemma SeqAssoc<T>(a: seq<T>, b: seq<T>, c: seq<T>)
    ensures (a + b) + c == a + (b + c)
  {
  }

  lemma SeqSnocSnoc<T>(a: seq<T>, x: T, y: T)
    ensures (a + [x]) + [y] == a + [x, y]
  {
  }

  lemma SeqEmptyRight<T>(a: seq<T>)
    ensures a + [] == a
  {
  }

  lemma ValidSuffix(rs: seq<ReceiverConfig>, i: nat)
    requires ValidReceivers(rs) && i <= |rs|
    ensures ValidReceivers(rs[i..])
  {
    forall k | 0 <= k < |rs| - i
      ensures ValidZones(rs[i..][k])
    {
      assert rs[i..][k] == rs[i + k];
    }
  }

  /** One receiver's `publish` keeps what is left to do in step with what was
      done. */
  lemma AllLoopStepAt(rs: seq<ReceiverConfig>, mqtt: MqttConfig, hass: HomeAssistantConfig,
                      catalog: Option<EntitiesConfig>, i: nat, before: seq<Effect>, after: seq<Effect>,
                      o: Outcome<PublishError>)
    requires i < |rs| && ValidReceivers(rs[i..])
    requires ValidZones(rs[i])
    requires after == before + PublishTrace(rs[i], mqtt, hass, catalog)
    requires o == PublishOutcome(rs[i], mqtt, hass, catalog)
    ensures ValidReceivers(rs[i + 1..])
    ensures after + AllPublishTrace(rs[i + 1..], mqtt, hass, catalog) == before + AllPublishTrace(rs[i..], mqtt, hass, catalog)
    ensures FirstFailure(rs[i..], mqtt, hass, catalog)
      == if o.Fail? then o else FirstFailure(rs[i + 1..], mqtt, hass, catalog)
  {
    assert rs[i..][0] == rs[i] && rs[i..][1..] == rs[i + 1..];
    ValidSuffix(rs[i..], 1);
    AllStep(rs[i..], mqtt, hass, catalog);
    SeqAssoc(before, PublishTrace(rs[i], mqtt, hass, catalog), AllPublishTrace(rs[i + 1..], mqtt, hass, catalog));
  }

  /** Once every receiver has published, the effects so far are those of the
      run, short of the disconnect. */
  lemma RunTraceDone(rs: seq<ReceiverConfig>, mqtt: MqttConfig, hass: HomeAssistantConfig,
                     catalog: Option<EntitiesConfig>, t0: seq<Effect>, t: seq<Effect>)
    requires ValidReceivers(rs) && ValidReceivers(rs[|rs|..])
    requires t + AllPublishTrace(rs[|rs|..], mqtt, hass, catalog)
      == t0 + [FileWritten(hass.configFile, "")] + AllPublishTrace(rs, mqtt, hass, catalog)
    ensures FirstFailure(rs[|rs|..], mqtt, hass, catalog) == Pass
    ensures FirstFailure(rs, mqtt, hass, catalog).Fail? ==> t == t0 + RunTrace(rs, mqtt, hass, catalog)
    ensures FirstFailure(rs, mqtt, hass, catalog).Pass? ==> t + [Disconnected] == t0 + RunTrace(rs, mqtt, hass, catalog)
  {
    assert rs[|rs|..] == [];
    var w := [FileWritten(hass.configFile, "")];
    var all := AllPublishTrace(rs, mqtt, hass, catalog);
    SeqEmptyRight(t);
    SeqAssoc(t0, w, all);
    if FirstFailure(rs, mqtt, hass, catalog).Pass? {
      SeqAssoc(t0, w + all, [Disconnected]);
    } else {
      SeqEmptyRight(w + all);
    }
  }

  class MqttHassPublisher {
    const receiver: ReceiverConfig
    const mqtt: MqttConfig
    const hass: HomeAssistantConfig
    /** The MQTT client, together with the file system it shares the run with. */
    const client: Host

    constructor(receiver: ReceiverConfig, mqtt: MqttConfig, hass: HomeAssistantConfig, client: Host)
      ensures this.receiver == receiver && this.mqtt == mqtt && this.hass == hass && this.client == client
    {
      this.receiver := receiver;
      this.mqtt := mqtt;
      this.hass := hass;
      this.client := client;
    }

    static method Create(receiver: ReceiverConfig, mqtt: MqttConfig, hass: HomeAssistantConfig, client: Host)
      returns (p: MqttHassPublisher)
      ensures fresh(p)
      ensures p.receiver == receiver && p.mqtt == mqtt && p.hass == hass && p.client == client
    {
      p := new MqttHassPublisher(receiver, mqtt, hass, client);
    }

    /** `addEntityConfig`: augment the template in place, then store it under
        its composite id with the four common fields. Returns the new `cmps`
        and the template as augmented. */
    method AddEntityConfig(cmps: Components, kind: Kind, zone: nat, config: EntityConfig, deviceName: string)
      returns (r: Result<(Components, EntityConfig), Error>)
      ensures r == AddEntity(receiver, mqtt, cmps, kind, zone, deviceName, config)
    {
      var zoneId := ZoneId(zone);
      var id := receiver.id + "_" + zoneId + "_" + config.id;
      var entity := config.entity;
      if kind == Fan {
        entity := Assign(entity, PercentageCommandTopic, Str(mqtt.prefix + "/" + receiver.id + "/" + zoneId + "/command"));
        entity := Assign(entity, PercentageStateTopic, Str(mqtt.prefix + "/" + receiver.id + "/" + zoneId + "/state"));
      } else if kind == Select {
        if !(1 <= zone <= |receiver.zones|) {
          return Failure(MissingZone(zone));
        }
        entity := Assign(entity, Options, Strs(receiver.zones[zone - 1].sources));
      } else if config.id == "mute_toggle" {
        entity := Assign(entity, CommandTemplate, Str(MuteToggleTemplate(receiver, zone)));
      } else if config.id == "refresh" {
        entity := Assign(entity, PressPayload, Str("REFRESH"));
      }
      var augmented := config.(entity := entity);
      assert Augment(receiver, mqtt, kind, zone, config) == Success(augmented);
      r := Success((Assign(cmps, id, Component(receiver, kind, zone, deviceName, augmented)), augmented));
    }

    /** One of the five `for` loops of `publish`: `addEntityConfig` for every
        template of one kind, in order. Returns the new `cmps` and the
        templates as augmented. */
    method AddKind(cmps: Components, kind: Kind, zone: nat, ts: seq<EntityConfig>, compName: string)
      returns (r: Result<(Components, seq<EntityConfig>), Error>)
      ensures r == FillKind(receiver, mqtt, cmps, kind, zone, compName, ts)
    {
      var out := cmps;
      var done: seq<EntityConfig> := [];
      for i := 0 to |ts|
        invariant AugmentEach(receiver, mqtt, kind, zone, ts[..i]) == Success(done)
        invariant out == AssignEach(cmps, done, EntryKey(receiver, zone), EntryValue(receiver, kind, zone, compName))
      {
        var step := AddEntityConfig(out, kind, zone, ts[i], compName);
        AddEntityStep(receiver, mqtt, out, kind, zone, compName, ts[i]);
        if step.Failure? {
          AugmentEachStops(receiver, mqtt, kind, zone, ts, i);
          return Failure(step.error);
        }
        AugmentEachSnoc(receiver, mqtt, kind, zone, ts, i);
        AssignEachSnoc(cmps, done, step.value.1, EntryKey(receiver, zone), EntryValue(receiver, kind, zone, compName));
        out, done := step.value.0, done + [step.value.1];
      }
      assert ts[..|ts|] == ts;
      return Success((out, done));
    }

    /** The five loops of `publish` that fill `payload.cmps`, switches to
        selects. Returns `cmps` and the catalog as the loops leave it. */
    method CollectComponents(zone: nat, compName: string, cat: EntitiesConfig)
      returns (r: Result<(Components, EntitiesConfig), Error>)
      ensures r == BuildComponents(receiver, mqtt, zone, compName, cat)
    {
      var sw :- AddKind([], Switch, zone, cat.switches, compName);
      var bt :- AddKind(sw.0, Button, zone, cat.buttons, compName);
      var se :- AddKind(bt.0, Sensor, zone, cat.sensors, compName);
      var fa :- AddKind(se.0, Fan, zone, cat.fans, compName);
      var sl :- AddKind(fa.0, Select, zone, cat.selects, compName);
      return Success((sl.0, EntitiesConfig(sw.1, bt.1, se.1, fa.1, sl.1)));
    }

    /** `appendMediaPlayerConfig`: append the zone's block to the
        media-player file. */
    method AppendMediaPlayerConfig(name: string, id: string, zone: string)
      modifies client
      ensures client.trace == old(client.trace) + [FileAppended(hass.configFile, MediaPlayerConfig(name, id, zone))]
    {
      client.AppendFile(hass.configFile, MediaPlayerConfig(name, id, zone));
    }

    /** One pass of the zone loop of `publish`: build the zone's payload from
        the catalog, publish it, and append the zone's media-player block.
        Returns the catalog as the pass leaves it. */
    method PublishZone(zone: ZoneConfig, entityConfig: EntitiesConfig) returns (r: Result<EntitiesConfig, Error>)
      requires IsDecimal(zone.index)
      modifies client
      ensures var b := BuildZone(receiver, mqtt, hass, entityConfig, zone);
        && (b.Failure? ==> r == Failure(b.error) && client.trace == old(client.trace))
        && (b.Success? ==> r == Success(b.value.catalog)
                           && client.trace == old(client.trace) + ZoneEffects(receiver, hass, zone, b.value))
    {
      var zoneIndex := ParseDecimal(zone.index);
      var zoneId := ZoneId(zoneIndex);
      var deviceId := DeviceId(receiver, zoneIndex);
      var deviceName := DeviceName(receiver, zone);
      var compName := CompName(receiver, hass, zone);
      var built := CollectComponents(zoneIndex, compName, entityConfig);
      if built.Failure? {
        return Failure(built.error);
      }
      var payload := Payload(
        Device(deviceId, deviceName),
        Origin(OriginName),
        Availability(AvailabilityTopic(mqtt, receiver), AvailabilityTemplate, PayloadAvailable),
        built.value.0,
        StateTopic(mqtt, receiver, zoneIndex),
        CommandTopic(mqtt, receiver, zoneIndex));
      ghost var d := BuildZone(receiver, mqtt, hass, entityConfig, zone).value;
      assert d == ZoneDiscovery(DiscoveryTopic(hass, deviceId), payload, built.value.1);
      ghost var effects := ZoneEffects(receiver, hass, zone, d);
      assert effects == [Published(DiscoveryTopic(hass, deviceId), payload),
                         FileAppended(hass.configFile, MediaPlayerConfig(compName, deviceId, zoneId))];
      client.PublishAsync(DiscoveryTopic(hass, deviceId), payload);
      AppendMediaPlayerConfig(compName, deviceId, zoneId);
      SeqSnocSnoc(old(client.trace), effects[0], effects[1]);
      return Success(built.value.1);
    }

    /** `publish`: read the catalog, then run the zone loop over the zones in
        order; the first zone that throws ends the call. */
    method Publish() returns (r: Outcome<PublishError>)
      requires ValidZones(receiver)
      modifies client
      ensures client.trace == old(client.trace) + PublishTrace(receiver, mqtt, hass, client.catalog)
      ensures r == PublishOutcome(receiver, mqtt, hass, client.catalog)
    {
      var read := client.ReadCatalog();
      if read.None? {
        return Fail(CatalogUnreadable);
      }
      var entityConfig := read.value;
      var zones := receiver.zones;
      ghost var goal := old(client.trace) + PublishTrace(receiver, mqtt, hass, client.catalog);
      SeqAssoc(old(client.trace), [FileRead(CatalogFile)], ZonesTrace(receiver, mqtt, hass, entityConfig, zones));
      assert zones[0..] == zones;
      for i := 0 to |zones|
        invariant DecimalIndices(zones[i..])
        invariant client.trace + ZonesTrace(receiver, mqtt, hass, entityConfig, zones[i..]) == goal
        invariant ZonesOutcome(receiver, mqtt, hass, entityConfig, zones[i..])
          == ZonesOutcome(receiver, mqtt, hass, read.value, zones)
      {
        ghost var before := client.trace;
        var next := PublishZone(zones[i], entityConfig);
        ZonesLoopStepAt(receiver, mqtt, hass, entityConfig, zones, i, before, client.trace, next);
        if next.Failure? {
          return Fail(ZoneFailed(next.error));
        }
        entityConfig := next.value;
      }
      assert zones[|zones|..] == [];
      SeqEmptyRight(client.trace);
      return Pass;
    }

    /** `start`: truncate the media-player file, create one publisher per
        receiver, run every `publish`, and disconnect when all succeed. The
        result is the first rejection in receiver order. */
    static method Start(receivers: seq<ReceiverConfig>, mqtt: MqttConfig, hass: HomeAssistantConfig, client: Host)
      returns (r: Outcome<PublishError>)
      requires ValidReceivers(receivers)
      modifies client
      ensures client.trace == old(client.trace) + RunTrace(receivers, mqtt, hass, client.catalog)
      ensures r == FirstFailure(receivers, mqtt, hass, client.catalog)
    {
      client.WriteFile(hass.configFile, "");
      ghost var start := client.trace;
      var managers: seq<MqttHassPublisher> := [];
      for i := 0 to |receivers|
        invariant client.trace == start
        invariant |managers| == i
        invariant forall j :: 0 <= j < i ==>
          managers[j].receiver == receivers[j] && managers[j].mqtt == mqtt
          && managers[j].hass == hass && managers[j].client == client
      {
        var m := Create(receivers[i], mqtt, hass, client);
        managers := managers + [m];
      }
      r := Pass;
      assert receivers[0..] == receivers;
      for i := 0 to |managers|
        invariant ValidReceivers(receivers[i..])
        invariant client.trace + AllPublishTrace(receivers[i..], mqtt, hass, client.catalog)
          == start + AllPublishTrace(receivers, mqtt, hass, client.catalog)
        invariant FirstFailure(receivers, mqtt, hass, client.catalog)
          == if r.Fail? then r else FirstFailure(receivers[i..], mqtt, hass, client.catalog)
      {
        ghost var before := client.trace;
        var o := managers[i].Publish();
        AllLoopStepAt(receivers, mqtt, hass, client.catalog, i, before, client.trace, o);
        if r.Pass? && o.Fail? {
          r := o;
        }
      }
      RunTraceDone(receivers, mqtt, hass, client.catalog, old(client.trace), client.trace);
      if r.Pass? {
        client.EndAsync();
      }
    }
  }
}
