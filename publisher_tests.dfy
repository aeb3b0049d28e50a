/** The scenarios of src/MqttHassPublisher.spec.ts, stated over the model of
    `start` and `publish`. */
module PublisherTests {
  import opened Wrappers
  import opened Decimal
  import opened ReceiverConfig
  import opened Discovery
  import opened ZonePayload
  import opened Io
  import opened Publisher
  import opened Run

  /** The two receivers of the `start` test: no sources and no zones. */
  function StartReceivers(): seq<ReceiverConfig> {
    [ReceiverConfig("AVR1", "avr_1", "1192.168.1.1234", [], []),
     ReceiverConfig("AVR2", "avr_2", "1192.168.1.5678", [], [])]
  }

  function StartMqtt(): MqttConfig {
    MqttConfig("mqtt", "1883", "user", "password", "denon")
  }

  lemma StartReceiversValid()
    ensures ValidReceivers(StartReceivers())
  {
    var rs := StartReceivers();
    assert ValidZones(rs[0]) && ValidZones(rs[1]);
  }

  /** `start` calls `publish` once for each of the two receivers, whatever
      the catalog. */
  lemma TestStartPublishesEachReceiver(catalog: Option<EntitiesConfig>)
    ensures ValidReceivers(StartReceivers())
    ensures ReadCount(RunTrace(StartReceivers(), StartMqtt(), TestHass(), catalog)) == 2
  {
    StartReceiversValid();
    RunLeavesFile(StartReceivers(), StartMqtt(), TestHass(), catalog, []);
  }

  /** With a catalog that parses, the run truncates `media_player.yaml`,
      reads the catalog once per receiver and disconnects; the file is left
      empty. */
  lemma TestStartTrace(cat: EntitiesConfig)
    ensures ValidReceivers(StartReceivers())
    ensures RunTrace(StartReceivers(), StartMqtt(), TestHass(), Some(cat))
        == [FileWritten("media_player.yaml", ""), FileRead(CatalogFile), FileRead(CatalogFile), Disconnected]
    ensures FileText(RunTrace(StartReceivers(), StartMqtt(), TestHass(), Some(cat)), "media_player.yaml") == Some("")
  {
    var rs := StartReceivers();
    StartReceiversValid();
    var r := [FileRead(CatalogFile)];
    assert PublishTrace(rs[0], StartMqtt(), TestHass(), Some(cat)) == r + [];
    assert PublishTrace(rs[1], StartMqtt(), TestHass(), Some(cat)) == r + [];
    AllStep(rs, StartMqtt(), TestHass(), Some(cat));
    ValidSuffix(rs, 1);
    AllStep(rs[1..], StartMqtt(), TestHass(), Some(cat));
    assert rs[1..][1..] == [];
    var t := RunTrace(rs, StartMqtt(), TestHass(), Some(cat));
    RunLeavesFile(rs, StartMqtt(), TestHass(), Some(cat), []);
    SeqEmptyLeft(t);
    assert AllBlocks(rs, TestHass()) == "" by {
      assert AllBlocks(rs[1..][1..], TestHass()) == "";
    }
  }

  lemma Zone2Id()
    ensures ZoneId(2) == "zone2"
  {
    assert NatToString(2) == "2";
  }

  lemma TestReceiverValid()
    ensures ValidZones(TestReceiver())
    ensures ZoneIndex(TestReceiver().zones[0]) == 1 && ZoneIndex(TestReceiver().zones[1]) == 2
  {
    var zs := TestReceiver().zones;
    assert IsDecimal(zs[0].index) && ZoneIndex(zs[0]) == 1;
    assert IsDecimal(zs[1].index) && ZoneIndex(zs[1]) == 2;
  }

  /** Both zones of the publish-test receiver are positions in its zone
      list, so `publish` resolves whatever the catalog. */
  lemma TestPublishResolves(cat: EntitiesConfig)
    ensures ValidZones(TestReceiver())
    ensures PublishOutcome(TestReceiver(), TestMqtt(), TestHass(), Some(cat)) == Pass
  {
    TestReceiverValid();
    PublishOutcomeIff(TestReceiver(), TestMqtt(), TestHass(), Some(cat));
  }

  /** The topics of two zones, in order. */
  lemma ZoneTopicsOfTwo(rcv: ReceiverConfig, hass: HomeAssistantConfig, zs: seq<ZoneConfig>)
    requires DecimalIndices(zs) && |zs| == 2
    ensures ZoneTopics(rcv, hass, zs)
      == [DiscoveryTopic(hass, DeviceId(rcv, ZoneIndex(zs[0]))), DiscoveryTopic(hass, DeviceId(rcv, ZoneIndex(zs[1])))]
  {
    DecimalSuffix(zs, 1);
    DecimalSuffix(zs, 2);
    assert zs[1..][0] == zs[1] && zs[1..][1..] == [];
    assert ZoneTopics(rcv, hass, zs[1..]) == [DiscoveryTopic(hass, DeviceId(rcv, ZoneIndex(zs[1])))] + [];
  }

  lemma TestZone2Topic()
    ensures DiscoveryTopic(TestHass(), DeviceId(TestReceiver(), 2)) == "homeassistant/device/avr_id_zone2/config"
  {
    Zone2Id();
    assert DeviceId(TestReceiver(), 2) == "avr_id_zone2";
  }

  lemma TestZoneTopics()
    ensures ValidZones(TestReceiver())
    ensures ZoneTopics(TestReceiver(), TestHass(), TestReceiver().zones)
      == ["homeassistant/device/avr_id_main_zone/config", "homeassistant/device/avr_id_zone2/config"]
  {
    TestReceiverValid();
    ZoneTopicsOfTwo(TestReceiver(), TestHass(), TestReceiver().zones);
    TestMainDeviceId();
    TestMainTopic();
    TestZone2Topic();
  }

  /** The publish test: two publishes, to the main zone's and zone 2's
      discovery topics in that order. */
  lemma TestPublishBothZones(cat: EntitiesConfig)
    ensures ValidZones(TestReceiver())
    ensures var t := PublishTrace(TestReceiver(), TestMqtt(), TestHass(), Some(cat));
      && PublishCount(t) == 2
      && Topics(t) == ["homeassistant/device/avr_id_main_zone/config", "homeassistant/device/avr_id_zone2/config"]
  {
    TestPublishResolves(cat);
    PublishTraceContents(TestReceiver(), TestMqtt(), TestHass(), Some(cat));
    TestZoneTopics();
  }
}
