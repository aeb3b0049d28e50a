/** One pass of the zone loop of `publish` up to the MQTT publish: the
    discovery topic and the device payload of one zone
    (src/MqttHassPublisher.ts). */
module ZonePayload {
  import opened Wrappers
  import opened Decimal
  import opened JsRecord
  import opened ReceiverConfig
  import opened Discovery

  datatype Device = Device(ids: string, name: string)

  datatype Origin = Origin(name: string)

  datatype Availability = Availability(topic: string, valueTemplate: string, payloadAvailable: string)

  /** The device-discovery payload, before it is serialised to JSON. */
  datatype Payload = Payload(
    dev: Device,
    o: Origin,
    availability: Availability,
    cmps: Components,
    stateTopic: string,
    commandTopic: string)

  const OriginName := "denon-mqtt-ha"
  const AvailabilityTemplate := "{{ value_json.state.main_power if value_json.state.main_power is defined else this.state }}"
  const PayloadAvailable := "ON"

  /** `parseInt(zone.index)` on a string of decimal digits. */
  function ZoneIndex(z: ZoneConfig): nat
    requires IsDecimal(z.index)
  {
    ParseDecimal(z.index)
  }

  function DeviceName(rcv: ReceiverConfig, z: ZoneConfig): string {
    rcv.name + " " + z.name
  }

  /** The prefix of every entity name: the zone name alone with short names,
      else the receiver name and the zone name. */
  function CompName(rcv: ReceiverConfig, hass: HomeAssistantConfig, z: ZoneConfig): string {
    if hass.shortNames then z.name else rcv.name + " " + z.name
  }

  function DiscoveryTopic(hass: HomeAssistantConfig, deviceId: string): string {
    hass.prefix + "/device/" + deviceId + "/config"
  }

  /** What one zone publishes, and the catalog as its entity loops leave it. */
  datatype ZoneDiscovery = ZoneDiscovery(topic: string, payload: Payload, catalog: EntitiesConfig)

  function BuildZone(rcv: ReceiverConfig, mqtt: MqttConfig, hass: HomeAssistantConfig, cat: EntitiesConfig, z: ZoneConfig)
    : Result<ZoneDiscovery, Error>
    requires IsDecimal(z.index)
  {
    var n := ZoneIndex(z);
    var deviceId := DeviceId(rcv, n);
    var built :- BuildComponents(rcv, mqtt, n, CompName(rcv, hass, z), cat);
    var payload := Payload(
      Device(deviceId, DeviceName(rcv, z)),
      Origin(OriginName),
      Availability(AvailabilityTopic(mqtt, rcv), AvailabilityTemplate, PayloadAvailable),
      built.0,
      StateTopic(mqtt, rcv, n),
      CommandTopic(mqtt, rcv, n));
    Success(ZoneDiscovery(DiscoveryTopic(hass, deviceId), payload, built.1))
  }

  /** Where a zone publishes and what its payload names, in terms of the
      zone number alone. */
  lemma BuildZoneShape(rcv: ReceiverConfig, mqtt: MqttConfig, hass: HomeAssistantConfig, cat: EntitiesConfig, z: ZoneConfig)
    requires IsDecimal(z.index)
    requires BuildZone(rcv, mqtt, hass, cat, z).Success?
    ensures var r := BuildZone(rcv, mqtt, hass, cat, z).value;
      && r.topic == DiscoveryTopic(hass, r.payload.dev.ids)
      && r.payload.dev == Device(DeviceId(rcv, ZoneIndex(z)), DeviceName(rcv, z))
      && r.payload.availability.topic == StateTopic(mqtt, rcv, 1)
      && r.payload.stateTopic == StateTopic(mqtt, rcv, ZoneIndex(z))
      && r.payload.commandTopic == CommandTopic(mqtt, rcv, ZoneIndex(z))
  {
    AvailabilityIsMainZoneState(mqtt, rcv, ZoneIndex(z));
  }

  /** A zone fails only when the catalog has select entities and the receiver
      has no zone at position `zone.index`. */
  lemma BuildZoneFails(rcv: ReceiverConfig, mqtt: MqttConfig, hass: HomeAssistantConfig, cat: EntitiesConfig, z: ZoneConfig)
    requires IsDecimal(z.index)
    ensures BuildZone(rcv, mqtt, hass, cat, z).Failure?
        <==> |cat.selects| > 0 && !(1 <= ZoneIndex(z) <= |rcv.zones|)
    ensures BuildZone(rcv, mqtt, hass, cat, z).Failure?
        ==> BuildZone(rcv, mqtt, hass, cat, z).error == MissingZone(ZoneIndex(z))
  {
    BuildComponentsFails(rcv, mqtt, ZoneIndex(z), CompName(rcv, hass, z), cat);
  }

  /** With unique template ids the payload's `cmps` has one entry per
      template, in catalog order, each the template augmented for this zone
      under the four common fields. */
  lemma BuildZoneCmps(rcv: ReceiverConfig, mqtt: MqttConfig, hass: HomeAssistantConfig, cat: EntitiesConfig, z: ZoneConfig)
    requires IsDecimal(z.index)
    requires BuildZone(rcv, mqtt, hass, cat, z).Success?
    requires UniqueIds(cat)
    ensures var cmps := BuildZone(rcv, mqtt, hass, cat, z).value.payload.cmps;
      && Keys(cmps) == AllCompositeIds(rcv, ZoneIndex(z), cat)
      && forall kind: Kind, t :: t in Templates(cat, kind) ==>
           Get(cmps, CompositeId(rcv, ZoneIndex(z), t)) == Entry(rcv, mqtt, kind, ZoneIndex(z), CompName(rcv, hass, z), t)
  {
    BuildComponentsKeys(rcv, mqtt, ZoneIndex(z), CompName(rcv, hass, z), cat);
    BuildComponentsEntries(rcv, mqtt, ZoneIndex(z), CompName(rcv, hass, z), cat);
  }

  /** Every template of the catalog is published in the zone's payload under
      `{dev.ids}_{template.id}`, with `default_entity_id`
      `{kind}.{dev.ids}_{template.id}`. */
  lemma ZoneEntityOfTemplate(rcv: ReceiverConfig, mqtt: MqttConfig, hass: HomeAssistantConfig, cat: EntitiesConfig,
                             z: ZoneConfig, kind: Kind, t: EntityConfig)
    requires IsDecimal(z.index)
    requires BuildZone(rcv, mqtt, hass, cat, z).Success?
    requires UniqueIds(cat)
    requires t in Templates(cat, kind)
    ensures var p := BuildZone(rcv, mqtt, hass, cat, z).value.payload;
      var entry := Get(p.cmps, p.dev.ids + "_" + t.id);
      && entry.Some?
      && Get(entry.value, "default_entity_id") == Some(Str(kind.Name() + "." + p.dev.ids + "_" + t.id))
  {
    var n, c := ZoneIndex(z), CompName(rcv, hass, z);
    var p := BuildZone(rcv, mqtt, hass, cat, z).value.payload;
    assert p.cmps == BuildComponents(rcv, mqtt, n, c, cat).value.0 && p.dev.ids == DeviceId(rcv, n);
    ComponentOfTemplate(rcv, mqtt, n, c, cat, kind, t);
    KeyAfterPrefix(kind.Name() + ".", p.dev.ids, t.id);
  }

  lemma KeyAfterPrefix(k: string, ids: string, id: string)
    ensures k + (ids + "_" + id) == k + ids + "_" + id
  {
  }

  /** A key `{dev.ids}_{x}` for an `x` that is no template's id is absent
      from the zone's payload, for any catalog. */
  lemma ZoneEntityAbsent(rcv: ReceiverConfig, mqtt: MqttConfig, hass: HomeAssistantConfig, cat: EntitiesConfig,
                         z: ZoneConfig, x: string)
    requires IsDecimal(z.index)
    requires BuildZone(rcv, mqtt, hass, cat, z).Success?
    requires x !in AllIds(cat)
    ensures var p := BuildZone(rcv, mqtt, hass, cat, z).value.payload;
      Get(p.cmps, p.dev.ids + "_" + x) == None
  {
    var n, c := ZoneIndex(z), CompName(rcv, hass, z);
    var p := BuildZone(rcv, mqtt, hass, cat, z).value.payload;
    assert p.cmps == BuildComponents(rcv, mqtt, n, c, cat).value.0 && p.dev.ids == DeviceId(rcv, n);
    BuildComponentsAbsent(rcv, mqtt, n, c, cat, x);
  }

  /** For any catalog, repeated ids included, the payload defines exactly the
      keys `{dev.ids}_{template.id}` of the catalog's templates, and each
      entity's `unique_id` is its key and its `default_entity_id` is its `p`,
      a dot and its key. */
  lemma ZoneCmpsNamed(rcv: ReceiverConfig, mqtt: MqttConfig, hass: HomeAssistantConfig, cat: EntitiesConfig, z: ZoneConfig)
    requires IsDecimal(z.index)
    requires BuildZone(rcv, mqtt, hass, cat, z).Success?
    ensures var p := BuildZone(rcv, mqtt, hass, cat, z).value.payload;
      && (forall k :: Get(p.cmps, k).Some? <==> k in Prefixed(p.dev.ids + "_", AllIds(cat)))
      && AllEntries(p.cmps, NamesItsKey)
  {
    var n := ZoneIndex(z);
    BuildZoneShape(rcv, mqtt, hass, cat, z);
    BuildComponentsDefined(rcv, mqtt, n, CompName(rcv, hass, z), cat);
    BuildComponentsNamesKeys(rcv, mqtt, n, CompName(rcv, hass, z), cat);
    AllCompositeIdsPrefixed(rcv, n, cat);
  }

  /** With unique template ids, each fan entity of the payload carries the
      payload's own command and state topics as its percentage topics. */
  lemma ZoneFanTopics(rcv: ReceiverConfig, mqtt: MqttConfig, hass: HomeAssistantConfig, cat: EntitiesConfig,
                      z: ZoneConfig, t: EntityConfig)
    requires IsDecimal(z.index)
    requires BuildZone(rcv, mqtt, hass, cat, z).Success?
    requires UniqueIds(cat)
    requires t in cat.fans
    ensures var p := BuildZone(rcv, mqtt, hass, cat, z).value.payload;
      var entry := Get(p.cmps, p.dev.ids + "_" + t.id);
      && entry.Some?
      && Get(entry.value, PercentageCommandTopic) == Some(Str(p.commandTopic))
      && Get(entry.value, PercentageStateTopic) == Some(Str(p.stateTopic))
  {
    var n, c := ZoneIndex(z), CompName(rcv, hass, z);
    var p := BuildZone(rcv, mqtt, hass, cat, z).value.payload;
    assert p.cmps == BuildComponents(rcv, mqtt, n, c, cat).value.0 && p.dev.ids == DeviceId(rcv, n);
    assert p.commandTopic == CommandTopic(mqtt, rcv, n) && p.stateTopic == StateTopic(mqtt, rcv, n);
    FanTopicsInCmps(rcv, mqtt, n, c, cat, t);
    assert p.dev.ids + "_" + t.id == CompositeId(rcv, n, t);
  }

  /** With unique template ids, a zone whose catalog has selects is listed in
      the receiver at position `zone.index`, and each select entity offers
      the sources of that listed zone. */
  lemma ZoneSelectOptions(rcv: ReceiverConfig, mqtt: MqttConfig, hass: HomeAssistantConfig, cat: EntitiesConfig,
                          z: ZoneConfig, t: EntityConfig)
    requires IsDecimal(z.index)
    requires BuildZone(rcv, mqtt, hass, cat, z).Success?
    requires UniqueIds(cat)
    requires t in cat.selects
    ensures 1 <= ZoneIndex(z) <= |rcv.zones|
    ensures var p := BuildZone(rcv, mqtt, hass, cat, z).value.payload;
      var entry := Get(p.cmps, p.dev.ids + "_" + t.id);
      && entry.Some?
      && Get(entry.value, Options) == Some(Strs(rcv.zones[ZoneIndex(z) - 1].sources))
  {
    var n, c := ZoneIndex(z), CompName(rcv, hass, z);
    var p := BuildZone(rcv, mqtt, hass, cat, z).value.payload;
    assert p.cmps == BuildComponents(rcv, mqtt, n, c, cat).value.0 && p.dev.ids == DeviceId(rcv, n);
    SelectOptionsInCmps(rcv, mqtt, n, c, cat, t);
    assert p.dev.ids + "_" + t.id == CompositeId(rcv, n, t);
  }

  /** Catalogs no zone can tell apart give every zone the same topic and
      payload. */
  lemma BuildZoneIndistinguishable(rcv: ReceiverConfig, mqtt: MqttConfig, hass: HomeAssistantConfig,
                                   a: EntitiesConfig, b: EntitiesConfig, z: ZoneConfig)
    requires IsDecimal(z.index)
    requires Indistinguishable(rcv, mqtt, a, b)
    ensures BuildZone(rcv, mqtt, hass, a, z) == BuildZone(rcv, mqtt, hass, b, z)
  {
    assert BuildComponents(rcv, mqtt, ZoneIndex(z), CompName(rcv, hass, z), a)
        == BuildComponents(rcv, mqtt, ZoneIndex(z), CompName(rcv, hass, z), b);
  }

  lemma CancelAround(p: string, x: string, y: string, q: string)
    requires p + x + q == p + y + q
    ensures x == y
  {
    var w := p + x + q;
    assert x == w[|p|..|p| + |x|];
    assert y == (p + y + q)[|p|..|p| + |y|];
  }

  /** The availability topic is the main zone's state topic, for every zone;
      it is the zone's own state topic exactly when the zone is the main zone. */
  lemma AvailabilityIsMainZoneState(mqtt: MqttConfig, rcv: ReceiverConfig, zone: nat)
    ensures AvailabilityTopic(mqtt, rcv) == StateTopic(mqtt, rcv, 1)
    ensures AvailabilityTopic(mqtt, rcv) == StateTopic(mqtt, rcv, zone) <==> zone == 1
  {
    var p := mqtt.prefix + "/" + rcv.id + "/";
    assert StateTopic(mqtt, rcv, 1) == p + "main_zone" + "/state";
    assert AvailabilityTopic(mqtt, rcv) == p + "main_zone" + "/state";
    assert StateTopic(mqtt, rcv, zone) == p + ZoneId(zone) + "/state";
    if AvailabilityTopic(mqtt, rcv) == StateTopic(mqtt, rcv, zone) {
      CancelAround(p, "main_zone", ZoneId(zone), "/state");
    }
  }

  /** Distinct zone numbers never share a device id or a discovery topic. */
  lemma ZoneTopicsDistinct(hass: HomeAssistantConfig, rcv: ReceiverConfig, a: nat, b: nat)
    requires a != b
    ensures DeviceId(rcv, a) != DeviceId(rcv, b)
    ensures DiscoveryTopic(hass, DeviceId(rcv, a)) != DiscoveryTopic(hass, DeviceId(rcv, b))
  {
    if DiscoveryTopic(hass, DeviceId(rcv, a)) == DiscoveryTopic(hass, DeviceId(rcv, b)) {
      CancelAround(hass.prefix + "/device/", DeviceId(rcv, a), DeviceId(rcv, b), "/config");
    }
    if DeviceId(rcv, a) == DeviceId(rcv, b) {
      CancelAround(rcv.id + "_", ZoneId(a), ZoneId(b), "");
      ZoneIdInjective(a, b);
    }
  }

  /** Two zone entries whose indices parse to the same number publish to the
      same topic under the same device id, so the later one's discovery
      payload replaces the earlier one's. */
  lemma SameNumberSameTopic(rcv: ReceiverConfig, mqtt: MqttConfig, hass: HomeAssistantConfig, cat: EntitiesConfig,
                            a: ZoneConfig, b: ZoneConfig)
    requires IsDecimal(a.index) && IsDecimal(b.index)
    requires ZoneIndex(a) == ZoneIndex(b)
    requires BuildZone(rcv, mqtt, hass, cat, a).Success? && BuildZone(rcv, mqtt, hass, cat, b).Success?
    ensures BuildZone(rcv, mqtt, hass, cat, a).value.topic == BuildZone(rcv, mqtt, hass, cat, b).value.topic
    ensures BuildZone(rcv, mqtt, hass, cat, a).value.payload.dev.ids
      == BuildZone(rcv, mqtt, hass, cat, b).value.payload.dev.ids
  {
    BuildZoneShape(rcv, mqtt, hass, cat, a);
    BuildZoneShape(rcv, mqtt, hass, cat, b);
  }

  /** The indices `01` and `1` name the same zone number. */
  lemma LeadingZeroSameNumber(x: string, y: string, s: seq<string>, t: seq<string>)
    ensures ZoneIndex(ZoneConfig("01", x, s)) == ZoneIndex(ZoneConfig("1", y, t)) == 1
  {
    assert "01"[..1] == "0";
  }

  /** The receiver of the publish test: main zone and zone 2, both offering
      DVD and CD. */
  function TestReceiver(): ReceiverConfig {
    ReceiverConfig("AVR", "avr_id", "192.168.1.1234",
      [Source("1", "DVD", "DVD"), Source("2", "CD", "CD")],
      [ZoneConfig("1", "Main", ["DVD", "CD"]), ZoneConfig("2", "Zone2", ["DVD", "CD"])])
  }

  function TestMqtt(): MqttConfig {
    MqttConfig("localhost", "1883", "user", "password", "denon")
  }

  function TestHass(): HomeAssistantConfig {
    HomeAssistantConfig("homeassistant", "media_player.yaml", false)
  }

  /** The expected values of the publish test, one per lemma. */
  lemma TestMainDeviceId()
    ensures DeviceId(TestReceiver(), 1) == "avr_id_main_zone"
  {
  }

  lemma TestMainDeviceName()
    ensures DeviceName(TestReceiver(), TestReceiver().zones[0]) == "AVR Main"
  {
  }

  lemma TestMainTopic()
    ensures DiscoveryTopic(TestHass(), "avr_id_main_zone") == "homeassistant/device/avr_id_main_zone/config"
  {
  }

  lemma TestMainStateTopic()
    ensures StateTopic(TestMqtt(), TestReceiver(), 1) == "denon/avr_id/main_zone/state"
  {
  }

  lemma TestMainCommandTopic()
    ensures CommandTopic(TestMqtt(), TestReceiver(), 1) == "denon/avr_id/main_zone/command"
  {
  }

  /** Whatever the catalog, the main zone of the test receiver publishes to
      `homeassistant/device/avr_id_main_zone/config` a device `avr_id_main_zone`
      named `AVR Main` with the `denon/avr_id/main_zone` state and command
      topics. */
  lemma TestMainZone(cat: EntitiesConfig)
    ensures IsDecimal(TestReceiver().zones[0].index)
    ensures var r := BuildZone(TestReceiver(), TestMqtt(), TestHass(), cat, TestReceiver().zones[0]);
      && r.Success?
      && r.value.topic == "homeassistant/device/avr_id_main_zone/config"
      && r.value.payload.dev == Device("avr_id_main_zone", "AVR Main")
      && r.value.payload.stateTopic == "denon/avr_id/main_zone/state"
      && r.value.payload.commandTopic == "denon/avr_id/main_zone/command"
  {
    var z := TestReceiver().zones[0];
    assert IsDecimal(z.index) && ZoneIndex(z) == 1;
    BuildZoneFails(TestReceiver(), TestMqtt(), TestHass(), cat, z);
    BuildZoneShape(TestReceiver(), TestMqtt(), TestHass(), cat, z);
    TestMainDeviceId();
    TestMainDeviceName();
    TestMainTopic();
    TestMainStateTopic();
    TestMainCommandTopic();
  }

  /** Both zones of the test receiver publish, whatever the catalog: the two
      publishes the publish test counts. */
  lemma TestBothZonesPublish(cat: EntitiesConfig)
    ensures forall i :: 0 <= i < |TestReceiver().zones| ==>
      IsDecimal(TestReceiver().zones[i].index)
      && BuildZone(TestReceiver(), TestMqtt(), TestHass(), cat, TestReceiver().zones[i]).Success?
  {
    var zs := TestReceiver().zones;
    TestZoneNumbers();
    ListedZoneBuilds(TestReceiver(), TestMqtt(), TestHass(), cat, zs[0]);
    ListedZoneBuilds(TestReceiver(), TestMqtt(), TestHass(), cat, zs[1]);
  }

  /** The test receiver lists zone 1 and then zone 2. */
  lemma TestZoneNumbers()
    ensures var zs := TestReceiver().zones;
      && |zs| == 2
      && IsDecimal(zs[0].index) && ZoneIndex(zs[0]) == 1
      && IsDecimal(zs[1].index) && ZoneIndex(zs[1]) == 2
  {
    var zs := TestReceiver().zones;
    assert zs[0].index == "1" && zs[1].index == "2";
  }

  /** A zone whose number is a position of the receiver's list builds,
      whatever the catalog. */
  lemma ListedZoneBuilds(rcv: ReceiverConfig, mqtt: MqttConfig, hass: HomeAssistantConfig, cat: EntitiesConfig,
                         z: ZoneConfig)
    requires IsDecimal(z.index) && 1 <= ZoneIndex(z) <= |rcv.zones|
    ensures BuildZone(rcv, mqtt, hass, cat, z).Success?
  {
    BuildZoneFails(rcv, mqtt, hass, cat, z);
  }
}
