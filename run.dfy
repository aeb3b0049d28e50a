/** What a `publish` call and a whole `start` run leave behind: which
    topics are published, what the media-player file holds, when the run
    rejects, and that the templates the entity loops modify in place never
    show (src/MqttHassPublisher.ts). */
module Run {
  import opened Wrappers
  import opened Decimal
  import opened ReceiverConfig
  import opened Discovery
  import opened ZonePayload
  import opened Io
  import opened Publisher

  /** The blocks of the zones `zs`, in zone order. */
  function Blocks(rcv: ReceiverConfig, hass: HomeAssistantConfig, zs: seq<ZoneConfig>): string
    requires DecimalIndices(zs)
    decreases |zs|
  {
    if zs == [] then "" else ZoneBlock(rcv, hass, zs[0]) + Blocks(rcv, hass, zs[1..])
  }

  /** The discovery topics of the zones `zs`, in zone order. */
  function ZoneTopics(rcv: ReceiverConfig, hass: HomeAssistantConfig, zs: seq<ZoneConfig>): seq<string>
    requires DecimalIndices(zs)
    decreases |zs|
  {
    if zs == [] then [] else [DiscoveryTopic(hass, DeviceId(rcv, ZoneIndex(zs[0])))] + ZoneTopics(rcv, hass, zs[1..])
  }

  /** The blocks of every zone of every receiver, in receiver order. */
  function AllBlocks(rs: seq<ReceiverConfig>, hass: HomeAssistantConfig): string
    requires ValidReceivers(rs)
    decreases |rs|
  {
    if rs == [] then "" else Blocks(rs[0], hass, rs[0].zones) + AllBlocks(rs[1..], hass)
  }

  /** The number of zones of all receivers. */
  function ZoneTotal(rs: seq<ReceiverConfig>): nat
    decreases |rs|
  {
    if rs == [] then 0 else |rs[0].zones| + ZoneTotal(rs[1..])
  }

  /** The zone loop as it would run if every zone were built from the catalog
      as read, which is what copying the templates before augmenting them
      would do. */
  function PristineTrace(rcv: ReceiverConfig, mqtt: MqttConfig, hass: HomeAssistantConfig, cat: EntitiesConfig,
                         zs: seq<ZoneConfig>): seq<Effect>
    requires DecimalIndices(zs)
    decreases |zs|
  {
    if zs == [] then []
    else
      match BuildZone(rcv, mqtt, hass, cat, zs[0])
      case Failure(_) => []
      case Success(d) => ZoneEffects(rcv, hass, zs[0], d) + PristineTrace(rcv, mqtt, hass, cat, zs[1..])
  }

  /** The catalog a zone leaves behind builds every later zone exactly as the
      catalog it started from. */
  lemma ZoneCatalogInvisible(rcv: ReceiverConfig, mqtt: MqttConfig, hass: HomeAssistantConfig, cat: EntitiesConfig,
                             z: ZoneConfig, z2: ZoneConfig)
    requires IsDecimal(z.index) && IsDecimal(z2.index)
    requires BuildZone(rcv, mqtt, hass, cat, z).Success?
    ensures var after := BuildZone(rcv, mqtt, hass, cat, z).value.catalog;
      Indistinguishable(rcv, mqtt, after, cat)
      && BuildZone(rcv, mqtt, hass, after, z2) == BuildZone(rcv, mqtt, hass, cat, z2)
  {
    MutationInvisible(rcv, mqtt, ZoneIndex(z), CompName(rcv, hass, z), cat);
    var after := BuildZone(rcv, mqtt, hass, cat, z).value.catalog;
    BuildZoneIndistinguishable(rcv, mqtt, hass, after, cat, z2);
  }

  lemma IndistinguishableTrans(rcv: ReceiverConfig, mqtt: MqttConfig, a: EntitiesConfig, b: EntitiesConfig, c: EntitiesConfig)
    requires Indistinguishable(rcv, mqtt, a, b) && Indistinguishable(rcv, mqtt, b, c)
    ensures Indistinguishable(rcv, mqtt, a, c)
  {
  }

  /** The templates the entity loops modify in place are never observable:
      the zone loop publishes and appends exactly what it would with a fresh
      copy of the catalog for every zone. */
  lemma {:induction false} MutationNeverShows(rcv: ReceiverConfig, mqtt: MqttConfig, hass: HomeAssistantConfig,
                                              a: EntitiesConfig, b: EntitiesConfig, zs: seq<ZoneConfig>)
    requires DecimalIndices(zs)
    requires Indistinguishable(rcv, mqtt, a, b)
    ensures ZonesTrace(rcv, mqtt, hass, a, zs) == PristineTrace(rcv, mqtt, hass, b, zs)
    decreases |zs|
  {
    if zs != [] {
      DecimalSuffix(zs, 1);
      BuildZoneIndistinguishable(rcv, mqtt, hass, a, b, zs[0]);
      match BuildZone(rcv, mqtt, hass, a, zs[0])
      case Failure(_) =>
      case Success(d) =>
        ZoneCatalogInvisible(rcv, mqtt, hass, a, zs[0], zs[0]);
        IndistinguishableTrans(rcv, mqtt, d.catalog, a, b);
        MutationNeverShows(rcv, mqtt, hass, d.catalog, b, zs[1..]);
    }
  }

  /** The zone loop succeeds exactly when every zone builds from the catalog
      as read. */
  lemma {:induction false} ZonesOutcomePass(rcv: ReceiverConfig, mqtt: MqttConfig, hass: HomeAssistantConfig,
                                            cat: EntitiesConfig, zs: seq<ZoneConfig>)
    requires DecimalIndices(zs)
    ensures ZonesOutcome(rcv, mqtt, hass, cat, zs).Pass?
        <==> forall i :: 0 <= i < |zs| ==> BuildZone(rcv, mqtt, hass, cat, zs[i]).Success?
    ensures ZonesOutcome(rcv, mqtt, hass, cat, zs).Fail?
        ==> exists i :: 0 <= i < |zs| && BuildZone(rcv, mqtt, hass, cat, zs[i]) == Failure(ZonesOutcome(rcv, mqtt, hass, cat, zs).error)
    decreases |zs|
  {
    if zs != [] {
      DecimalSuffix(zs, 1);
      match BuildZone(rcv, mqtt, hass, cat, zs[0])
      case Failure(_) =>
      case Success(d) =>
        ZonesOutcomePass(rcv, mqtt, hass, d.catalog, zs[1..]);
        forall i | 0 <= i < |zs[1..]|
          ensures BuildZone(rcv, mqtt, hass, d.catalog, zs[1..][i]) == BuildZone(rcv, mqtt, hass, cat, zs[i + 1])
        {
          ZoneCatalogInvisible(rcv, mqtt, hass, cat, zs[0], zs[i + 1]);
        }
    }
  }

  /** `publish` resolves exactly when the catalog file parses and either the
      catalog has no select templates or every zone's index is a position in
      the receiver's zone list; otherwise it rejects with the catalog error or
      with the missing zone of some zone. */
  lemma PublishOutcomeIff(rcv: ReceiverConfig, mqtt: MqttConfig, hass: HomeAssistantConfig, catalog: Option<EntitiesConfig>)
    requires ValidZones(rcv)
    ensures PublishOutcome(rcv, mqtt, hass, catalog).Pass?
        <==> catalog.Some?
             && (|catalog.value.selects| == 0
                 || forall i :: 0 <= i < |rcv.zones| ==> 1 <= ZoneIndex(rcv.zones[i]) <= |rcv.zones|)
    ensures catalog.None? ==> PublishOutcome(rcv, mqtt, hass, catalog) == Fail(CatalogUnreadable)
    ensures catalog.Some? && PublishOutcome(rcv, mqtt, hass, catalog).Fail?
        ==> exists i :: 0 <= i < |rcv.zones|
              && !(1 <= ZoneIndex(rcv.zones[i]) <= |rcv.zones|)
              && PublishOutcome(rcv, mqtt, hass, catalog) == Fail(ZoneFailed(MissingZone(ZoneIndex(rcv.zones[i]))))
  {
    if catalog.Some? {
      var cat := catalog.value;
      var zs := rcv.zones;
      ZonesOutcomePass(rcv, mqtt, hass, cat, zs);
      forall i | 0 <= i < |zs|
        ensures BuildZone(rcv, mqtt, hass, cat, zs[i]).Failure?
            <==> |cat.selects| > 0 && !(1 <= ZoneIndex(zs[i]) <= |zs|)
        ensures BuildZone(rcv, mqtt, hass, cat, zs[i]).Failure?
            ==> BuildZone(rcv, mqtt, hass, cat, zs[i]).error == MissingZone(ZoneIndex(zs[i]))
      {
        BuildZoneFails(rcv, mqtt, hass, cat, zs[i]);
      }
    }
  }

  /** A publish followed by an append: one of each, and nothing read or
      truncated. */
  lemma PairCounts(topic: string, payload: Payload, file: string, text: string, path: string)
    ensures var e := [Published(topic, payload), FileAppended(file, text)];
      && PublishCount(e) == 1 && AppendCount(e, file) == 1 && ReadCount(e) == 0
      && Topics(e) == [topic]
      && Appended(e, file) == text
      && NoWrite(e, path)
  {
    var a, b := Published(topic, payload), FileAppended(file, text);
    assert [a, b] == [a] + [b];
    SingleEffect(a, file);
    SingleEffect(b, file);
    CountsConcat([a], [b], file);
    AppendedConcat([a], [b], file);
  }

  /** The effects of one zone: one publish, to the zone's topic, and one
      append of the zone's block to the media-player file. */
  lemma ZoneEffectsCounts(rcv: ReceiverConfig, hass: HomeAssistantConfig, z: ZoneConfig, d: ZoneDiscovery, path: string)
    requires IsDecimal(z.index)
    ensures var e := ZoneEffects(rcv, hass, z, d);
      && PublishCount(e) == 1 && AppendCount(e, hass.configFile) == 1 && ReadCount(e) == 0
      && Topics(e) == [d.topic]
      && Appended(e, hass.configFile) == ZoneBlock(rcv, hass, z)
      && NoWrite(e, path)
  {
    PairCounts(d.topic, d.payload, hass.configFile, ZoneBlock(rcv, hass, z), path);
  }

  /** The payloads of the leading zones that build, each from the catalog as
      the zone before it left it; the zone loop stops at the first that does
      not. */
  function Built(rcv: ReceiverConfig, mqtt: MqttConfig, hass: HomeAssistantConfig, cat: EntitiesConfig,
                 zs: seq<ZoneConfig>): seq<ZoneDiscovery>
    requires DecimalIndices(zs)
    decreases |zs|
  {
    if zs == [] then []
    else
      match BuildZone(rcv, mqtt, hass, cat, zs[0])
      case Failure(_) => []
      case Success(d) => [d] + Built(rcv, mqtt, hass, d.catalog, zs[1..])
  }

  /** The effects of the zones `zs[..|ds|]` with the payloads `ds`. */
  function PairsTrace(rcv: ReceiverConfig, hass: HomeAssistantConfig, zs: seq<ZoneConfig>, ds: seq<ZoneDiscovery>)
    : seq<Effect>
    requires DecimalIndices(zs) && |ds| <= |zs|
    decreases |ds|
  {
    if ds == [] then [] else ZoneEffects(rcv, hass, zs[0], ds[0]) + PairsTrace(rcv, hass, zs[1..], ds[1..])
  }

  /** The zone loop is the effects of the zones that build, in zone order,
      and it succeeds exactly when every zone builds. */
  lemma {:induction false} ZonesTraceIsPairs(rcv: ReceiverConfig, mqtt: MqttConfig, hass: HomeAssistantConfig,
                                             cat: EntitiesConfig, zs: seq<ZoneConfig>)
    requires DecimalIndices(zs)
    ensures |Built(rcv, mqtt, hass, cat, zs)| <= |zs|
    ensures ZonesTrace(rcv, mqtt, hass, cat, zs) == PairsTrace(rcv, hass, zs, Built(rcv, mqtt, hass, cat, zs))
    decreases |zs|
  {
    if zs != [] {
      DecimalSuffix(zs, 1);
      ZonesStep(rcv, mqtt, hass, cat, zs);
      var b := BuildZone(rcv, mqtt, hass, cat, zs[0]);
      if b.Success? {
        var ds := Built(rcv, mqtt, hass, cat, zs);
        ZonesTraceIsPairs(rcv, mqtt, hass, b.value.catalog, zs[1..]);
        assert ds == [b.value] + Built(rcv, mqtt, hass, b.value.catalog, zs[1..]);
        assert ds[0] == b.value && ds[1..] == Built(rcv, mqtt, hass, b.value.catalog, zs[1..]);
      }
    }
  }

  /** The zone loop succeeds exactly when it builds every zone. */
  lemma {:induction false} BuiltComplete(rcv: ReceiverConfig, mqtt: MqttConfig, hass: HomeAssistantConfig,
                                         cat: EntitiesConfig, zs: seq<ZoneConfig>)
    requires DecimalIndices(zs)
    ensures ZonesOutcome(rcv, mqtt, hass, cat, zs).Pass? <==> |Built(rcv, mqtt, hass, cat, zs)| == |zs|
    ensures |Built(rcv, mqtt, hass, cat, zs)| <= |zs|
    decreases |zs|
  {
    if zs != [] {
      DecimalSuffix(zs, 1);
      var b := BuildZone(rcv, mqtt, hass, cat, zs[0]);
      if b.Success? {
        BuiltComplete(rcv, mqtt, hass, b.value.catalog, zs[1..]);
      }
    }
  }

  /** The topics of payloads `ds`, in order. */
  function TopicsOf(ds: seq<ZoneDiscovery>): seq<string>
    decreases |ds|
  {
    if ds == [] then [] else [ds[0].topic] + TopicsOf(ds[1..])
  }

  /** Every payload built goes to its own zone's discovery topic. */
  lemma {:induction false} BuiltTopics(rcv: ReceiverConfig, mqtt: MqttConfig, hass: HomeAssistantConfig,
                                       cat: EntitiesConfig, zs: seq<ZoneConfig>)
    requires DecimalIndices(zs)
    ensures var ds := Built(rcv, mqtt, hass, cat, zs);
      && |ds| <= |zs|
      && DecimalIndices(zs[..|ds|])
      && TopicsOf(ds) == ZoneTopics(rcv, hass, zs[..|ds|])
    decreases |zs|
  {
    if zs == [] || BuildZone(rcv, mqtt, hass, cat, zs[0]).Failure? {
      assert zs[..0] == [];
    } else {
      var d := BuildZone(rcv, mqtt, hass, cat, zs[0]).value;
      BuiltHead(rcv, mqtt, hass, cat, zs);
      BuiltTopics(rcv, mqtt, hass, d.catalog, zs[1..]);
      var ds := [d] + Built(rcv, mqtt, hass, d.catalog, zs[1..]);
      assert ds[0] == d && ds[1..] == Built(rcv, mqtt, hass, d.catalog, zs[1..]);
      PrefixStep(zs, |ds|);
    }
  }

  /** A zone that builds is the first of the built zones, and its payload
      goes to its own discovery topic. */
  lemma BuiltHead(rcv: ReceiverConfig, mqtt: MqttConfig, hass: HomeAssistantConfig,
                  cat: EntitiesConfig, zs: seq<ZoneConfig>)
    requires DecimalIndices(zs) && zs != []
    requires BuildZone(rcv, mqtt, hass, cat, zs[0]).Success?
    ensures DecimalIndices(zs[1..])
    ensures var d := BuildZone(rcv, mqtt, hass, cat, zs[0]).value;
      && Built(rcv, mqtt, hass, cat, zs) == [d] + Built(rcv, mqtt, hass, d.catalog, zs[1..])
      && d.topic == DiscoveryTopic(hass, DeviceId(rcv, ZoneIndex(zs[0])))
  {
    DecimalSuffix(zs, 1);
    BuildZoneShape(rcv, mqtt, hass, cat, zs[0]);
  }

  /** The effects of built zones: one publish and one append per zone and
      nothing read or truncated. */
  lemma {:induction false} PairsCounts(rcv: ReceiverConfig, hass: HomeAssistantConfig, zs: seq<ZoneConfig>,
                                       ds: seq<ZoneDiscovery>, path: string)
    requires DecimalIndices(zs) && |ds| <= |zs|
    ensures var t := PairsTrace(rcv, hass, zs, ds);
      && PublishCount(t) == |ds| && AppendCount(t, hass.configFile) == |ds|
      && ReadCount(t) == 0 && NoWrite(t, path)
    decreases |ds|
  {
    if ds != [] {
      DecimalSuffix(zs, 1);
      var e := ZoneEffects(rcv, hass, zs[0], ds[0]);
      var rest := PairsTrace(rcv, hass, zs[1..], ds[1..]);
      PairsCounts(rcv, hass, zs[1..], ds[1..], path);
      ZoneEffectsCounts(rcv, hass, zs[0], ds[0], path);
      CountsConcat(e, rest, hass.configFile);
      NoWriteConcat(e, rest, path);
    }
  }

  /** Built zones append their blocks in zone order. */
  lemma {:induction false} PairsAppended(rcv: ReceiverConfig, hass: HomeAssistantConfig, zs: seq<ZoneConfig>,
                                         ds: seq<ZoneDiscovery>)
    requires DecimalIndices(zs) && |ds| <= |zs|
    ensures DecimalIndices(zs[..|ds|])
    ensures Appended(PairsTrace(rcv, hass, zs, ds), hass.configFile) == Blocks(rcv, hass, zs[..|ds|])
    decreases |ds|
  {
    if ds == [] {
      assert zs[..0] == [];
    } else {
      DecimalSuffix(zs, 1);
      var e := ZoneEffects(rcv, hass, zs[0], ds[0]);
      var rest := PairsTrace(rcv, hass, zs[1..], ds[1..]);
      PairsAppended(rcv, hass, zs[1..], ds[1..]);
      ZoneEffectsCounts(rcv, hass, zs[0], ds[0], "");
      AppendedConcat(e, rest, hass.configFile);
      PrefixStep(zs, |ds|);
    }
  }

  /** Built zones publish to their payloads' topics in zone order. */
  lemma {:induction false} PairsTopics(rcv: ReceiverConfig, hass: HomeAssistantConfig, zs: seq<ZoneConfig>,
                                       ds: seq<ZoneDiscovery>)
    requires DecimalIndices(zs) && |ds| <= |zs|
    ensures Topics(PairsTrace(rcv, hass, zs, ds)) == TopicsOf(ds)
    decreases |ds|
  {
    if ds != [] {
      DecimalSuffix(zs, 1);
      var e := ZoneEffects(rcv, hass, zs[0], ds[0]);
      var rest := PairsTrace(rcv, hass, zs[1..], ds[1..]);
      PairsTopics(rcv, hass, zs[1..], ds[1..]);
      ZoneEffectsCounts(rcv, hass, zs[0], ds[0], "");
      CountsConcat(e, rest, hass.configFile);
    }
  }

  /** A lone catalog read: one read, nothing else. */
  lemma ReadAlone(path: string)
    ensures var r := [FileRead(CatalogFile)];
      && ReadCount(r) == 1 && PublishCount(r) == 0 && AppendCount(r, path) == 0
      && Topics(r) == [] && Appended(r, path) == "" && NoWrite(r, path)
  {
    var r := [FileRead(CatalogFile)];
    assert r[..|r| - 1] == [] && r[|r| - 1] == FileRead(CatalogFile);
    assert Topics(r) == [] + [];
  }

  /** One `publish` call reads the catalog once, never truncates a file, and
      appends one block per publish. */
  lemma PublishTraceCounts(rcv: ReceiverConfig, mqtt: MqttConfig, hass: HomeAssistantConfig,
                           catalog: Option<EntitiesConfig>, path: string)
    requires ValidZones(rcv)
    ensures var t := PublishTrace(rcv, mqtt, hass, catalog);
      && ReadCount(t) == 1 && NoWrite(t, path)
      && AppendCount(t, hass.configFile) == PublishCount(t) <= |rcv.zones|
  {
    var r := [FileRead(CatalogFile)];
    ReadAlone(hass.configFile);
    ReadAlone(path);
    if catalog.Some? {
      var z := ZonesTrace(rcv, mqtt, hass, catalog.value, rcv.zones);
      ZonesTraceIsPairs(rcv, mqtt, hass, catalog.value, rcv.zones);
      PairsCounts(rcv, hass, rcv.zones, Built(rcv, mqtt, hass, catalog.value, rcv.zones), path);
      CountsConcat(r, z, hass.configFile);
      NoWriteConcat(r, z, path);
    } else {
      SeqEmptyRight(r);
    }
  }

  /** A zone loop that succeeds has published every zone to its discovery
      topic and appended every zone's block, in zone order. */
  lemma ZonesTraceContents(rcv: ReceiverConfig, mqtt: MqttConfig, hass: HomeAssistantConfig,
                           cat: EntitiesConfig, zs: seq<ZoneConfig>)
    requires DecimalIndices(zs)
    requires ZonesOutcome(rcv, mqtt, hass, cat, zs).Pass?
    ensures var t := ZonesTrace(rcv, mqtt, hass, cat, zs);
      && PublishCount(t) == |zs|
      && Topics(t) == ZoneTopics(rcv, hass, zs)
      && Appended(t, hass.configFile) == Blocks(rcv, hass, zs)
  {
    var ds := Built(rcv, mqtt, hass, cat, zs);
    ZonesTraceIsPairs(rcv, mqtt, hass, cat, zs);
    BuiltComplete(rcv, mqtt, hass, cat, zs);
    BuiltTopics(rcv, mqtt, hass, cat, zs);
    PairsCounts(rcv, hass, zs, ds, "");
    PairsAppended(rcv, hass, zs, ds);
    PairsTopics(rcv, hass, zs, ds);
    SeqWhole(zs);
  }

  /** A `publish` call that resolves has published every zone of the
      receiver to its discovery topic and appended every zone's block, in
      zone order. */
  lemma PublishTraceContents(rcv: ReceiverConfig, mqtt: MqttConfig, hass: HomeAssistantConfig,
                             catalog: Option<EntitiesConfig>)
    requires ValidZones(rcv)
    requires PublishOutcome(rcv, mqtt, hass, catalog).Pass?
    ensures var t := PublishTrace(rcv, mqtt, hass, catalog);
      && PublishCount(t) == |rcv.zones|
      && Topics(t) == ZoneTopics(rcv, hass, rcv.zones)
      && Appended(t, hass.configFile) == Blocks(rcv, hass, rcv.zones)
  {
    var r := [FileRead(CatalogFile)];
    var z := ZonesTrace(rcv, mqtt, hass, catalog.value, rcv.zones);
    ReadAlone(hass.configFile);
    ZonesTraceContents(rcv, mqtt, hass, catalog.value, rcv.zones);
    CountsConcat(r, z, hass.configFile);
    AppendedConcat(r, z, hass.configFile);
    SeqEmptyLeft(Topics(z));
    SeqEmptyLeft(Appended(z, hass.configFile));
  }

  lemma SeqWhole<T>(s: seq<T>)
    ensures s[..|s|] == s
  {
  }

  lemma SeqEmptyLeft<T>(s: seq<T>)
    ensures [] + s == s
  {
  }

  /** The `publish` calls of all receivers read the catalog once per
      receiver, never truncate a file, and append one block per publish. */
  lemma {:induction false} AllPublishTraceCounts(rs: seq<ReceiverConfig>, mqtt: MqttConfig, hass: HomeAssistantConfig,
                                                 catalog: Option<EntitiesConfig>, path: string)
    requires ValidReceivers(rs)
    ensures var t := AllPublishTrace(rs, mqtt, hass, catalog);
      && ReadCount(t) == |rs| && NoWrite(t, path)
      && AppendCount(t, hass.configFile) == PublishCount(t)
    decreases |rs|
  {
    if rs != [] {
      ValidSuffix(rs, 1);
      AllStep(rs, mqtt, hass, catalog);
      var p := PublishTrace(rs[0], mqtt, hass, catalog);
      var rest := AllPublishTrace(rs[1..], mqtt, hass, catalog);
      AllPublishTraceCounts(rs[1..], mqtt, hass, catalog, path);
      PublishTraceCounts(rs[0], mqtt, hass, catalog, path);
      CountsConcat(p, rest, hass.configFile);
      NoWriteConcat(p, rest, path);
    }
  }

  /** When every `publish` call resolves, they have published once per zone
      and appended every zone's block, receiver by receiver and zone by
      zone. */
  lemma {:induction false} AllPublishTraceContents(rs: seq<ReceiverConfig>, mqtt: MqttConfig, hass: HomeAssistantConfig,
                                                   catalog: Option<EntitiesConfig>)
    requires ValidReceivers(rs)
    requires FirstFailure(rs, mqtt, hass, catalog).Pass?
    ensures var t := AllPublishTrace(rs, mqtt, hass, catalog);
      PublishCount(t) == ZoneTotal(rs) && Appended(t, hass.configFile) == AllBlocks(rs, hass)
    decreases |rs|
  {
    if rs != [] {
      ValidSuffix(rs, 1);
      AllStep(rs, mqtt, hass, catalog);
      var p := PublishTrace(rs[0], mqtt, hass, catalog);
      var rest := AllPublishTrace(rs[1..], mqtt, hass, catalog);
      assert PublishOutcome(rs[0], mqtt, hass, catalog).Pass? && FirstFailure(rs[1..], mqtt, hass, catalog).Pass?;
      AllPublishTraceContents(rs[1..], mqtt, hass, catalog);
      PublishTraceContents(rs[0], mqtt, hass, catalog);
      CountsConcat(p, rest, hass.configFile);
      AppendedConcat(p, rest, hass.configFile);
      assert AllBlocks(rs, hass) == Blocks(rs[0], hass, rs[0].zones) + AllBlocks(rs[1..], hass);
      assert ZoneTotal(rs) == |rs[0].zones| + ZoneTotal(rs[1..]);
    }
  }

  /** Truncating a file and then only appending to it leaves exactly the
      appended text in it, whatever it held before. */
  lemma TruncateThenAppend(t0: seq<Effect>, path: string, all: seq<Effect>, tail: seq<Effect>)
    requires NoWrite(all, path)
    requires tail == [] || tail == [Disconnected]
    ensures var t := [FileWritten(path, "")] + all + tail;
      && FileText(t0 + t, path) == Some(Appended(all, path))
      && ReadCount(t) == ReadCount(all) && PublishCount(t) == PublishCount(all)
  {
    var w := [FileWritten(path, "")];
    assert NoWrite(tail, path);
    NoWriteConcat(all, tail, path);
    SeqAssoc(t0, w, all + tail);
    SeqAssoc(w, all, tail);
    FileTextAfterWrite(t0, "", all + tail, path);
    AppendedConcat(all, tail, path);
    CountsConcat(w + all, tail, path);
    CountsConcat(w, all, path);
    assert w[..|w| - 1] == [];
    assert Appended(tail, path) == "" && ReadCount(tail) == 0 && PublishCount(tail) == 0 by {
      if tail != [] {
        assert tail[..|tail| - 1] == [];
      }
    }
    assert ReadCount(w) == 0 && PublishCount(w) == 0;
    assert "" + (Appended(all, path) + "") == Appended(all, path);
  }

  /** After `start`, whatever the media-player file held before, it holds
      exactly the blocks the run appended, and the run has read the catalog
      once per receiver; when every `publish` resolves the file holds every
      zone's block, receiver by receiver, and the run has published once per
      zone. */
  lemma RunLeavesFile(rs: seq<ReceiverConfig>, mqtt: MqttConfig, hass: HomeAssistantConfig,
                      catalog: Option<EntitiesConfig>, t0: seq<Effect>)
    requires ValidReceivers(rs)
    ensures var t := RunTrace(rs, mqtt, hass, catalog);
      && FileText(t0 + t, hass.configFile) == Some(Appended(AllPublishTrace(rs, mqtt, hass, catalog), hass.configFile))
      && ReadCount(t) == |rs|
      && (FirstFailure(rs, mqtt, hass, catalog).Pass? ==>
            FileText(t0 + t, hass.configFile) == Some(AllBlocks(rs, hass)) && PublishCount(t) == ZoneTotal(rs))
  {
    var all := AllPublishTrace(rs, mqtt, hass, catalog);
    var tail: seq<Effect> := if FirstFailure(rs, mqtt, hass, catalog).Pass? then [Disconnected] else [];
    AllPublishTraceCounts(rs, mqtt, hass, catalog, hass.configFile);
    TruncateThenAppend(t0, hass.configFile, all, tail);
    if FirstFailure(rs, mqtt, hass, catalog).Pass? {
      AllPublishTraceContents(rs, mqtt, hass, catalog);
    }
  }

  /** The first `k` zones are the first zone followed by the first `k - 1`
      of the rest. */
  lemma PrefixStep(zs: seq<ZoneConfig>, k: nat)
    requires DecimalIndices(zs) && 0 < k <= |zs|
    ensures DecimalIndices(zs[..k]) && DecimalIndices(zs[1..][..k - 1])
    ensures zs[..k] != [] && zs[..k][0] == zs[0] && zs[..k][1..] == zs[1..][..k - 1]
  {
    forall i | 0 <= i < k
      ensures IsDecimal(zs[..k][i].index)
    {
      assert zs[..k][i] == zs[i];
    }
    assert zs[..k][1..] == zs[1..][..k - 1];
  }

  lemma NoWriteConcat(a: seq<Effect>, b: seq<Effect>, path: string)
    requires NoWrite(a, path) && NoWrite(b, path)
    ensures NoWrite(a + b, path)
  {
    forall i | 0 <= i < |a + b|
      ensures !((a + b)[i].FileWritten? && (a + b)[i].path == path)
    {
      if i >= |a| {
        assert (a + b)[i] == b[i - |a|];
      }
    }
  }
}
