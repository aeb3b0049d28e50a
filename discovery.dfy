/** What one receiver zone announces to Home Assistant: its zone id, its
    topics, and the discovery payload whose `cmps` dictionary is filled from
    the entity-template catalog (src/MqttHassPublisher.ts). */
module Discovery {
  import opened Wrappers
  import opened Decimal
  import opened JsRecord
  import opened ReceiverConfig

  datatype MqttConfig = MqttConfig(host: string, port: string, username: string, password: string, prefix: string)

  datatype HomeAssistantConfig = HomeAssistantConfig(prefix: string, configFile: string, shortNames: bool)

  /** A field of an entity record: a string, or a list of strings (`options`). */
  datatype Value = Str(s: string) | Strs(items: seq<string>)

  type Fields = Rec<Value>

  /** The `cmps` dictionary: composite entity id to that entity's fields. */
  type Components = Rec<Fields>

  /** One entity template of the catalog. */
  datatype EntityConfig = EntityConfig(name: string, id: string, entity: Fields)

  /** The catalog `hass-mqtt-config.json`, one list per entity kind. */
  datatype EntitiesConfig = EntitiesConfig(
    switches: seq<EntityConfig>,
    buttons: seq<EntityConfig>,
    sensors: seq<EntityConfig>,
    fans: seq<EntityConfig>,
    selects: seq<EntityConfig>)

  /** The entity kinds, in the order the catalog is walked. */
  datatype Kind = Switch | Button | Sensor | Fan | Select {
    function Name(): string {
      match this
      case Switch => "switch"
      case Button => "button"
      case Sensor => "sensor"
      case Fan => "fan"
      case Select => "select"
    }
  }

  function Templates(cat: EntitiesConfig, kind: Kind): seq<EntityConfig> {
    match kind
    case Switch => cat.switches
    case Button => cat.buttons
    case Sensor => cat.sensors
    case Fan => cat.fans
    case Select => cat.selects
  }

  /** The TypeError raised by reading `sources` of `receiver.zones[zone - 1]`
      when that element is undefined. */
  datatype Error = MissingZone(zone: nat)

  /** `getZoneId`: zone 1 is the main zone, zone n is `zone{n}`; the digits
      after `zone` read back as n. */
  function ZoneId(zone: nat): (id: string)
    ensures id == "main_zone" <==> zone == 1
    ensures zone != 1 ==> |id| > 4 && id[..4] == "zone" && IsCanonical(id[4..]) && ParseDecimal(id[4..]) == zone
  {
    if zone == 1 then "main_zone"
    else
      var id := "zone" + NatToString(zone);
      assert id[0] == 'z' && id[4..] == NatToString(zone);
      id
  }

  /** `getZoneId` names no two zones alike. */
  lemma ZoneIdInjective(a: nat, b: nat)
    requires ZoneId(a) == ZoneId(b)
    ensures a == b
  {
  }

  function DeviceId(rcv: ReceiverConfig, zone: nat): string {
    rcv.id + "_" + ZoneId(zone)
  }

  function StateTopic(mqtt: MqttConfig, rcv: ReceiverConfig, zone: nat): string {
    mqtt.prefix + "/" + rcv.id + "/" + ZoneId(zone) + "/state"
  }

  function CommandTopic(mqtt: MqttConfig, rcv: ReceiverConfig, zone: nat): string {
    mqtt.prefix + "/" + rcv.id + "/" + ZoneId(zone) + "/command"
  }

  /** The availability topic, written out with `main_zone` for every zone. */
  function AvailabilityTopic(mqtt: MqttConfig, rcv: ReceiverConfig): string {
    mqtt.prefix + "/" + rcv.id + "/main_zone/state"
  }

  /** `{receiver.id}_{zoneId}_{template.id}`. */
  function CompositeId(rcv: ReceiverConfig, zone: nat, t: EntityConfig): string {
    DeviceId(rcv, zone) + "_" + t.id
  }

  function MuteToggleTemplate(rcv: ReceiverConfig, zone: nat): string {
    "{ \"mute\": { \"text\": {% if is_state('switch." + rcv.id + "_" + ZoneId(zone)
      + "_mute', 'off') %}\"ON\"{% else %}\"OFF\"{% endif %} } }"
  }

  const PercentageCommandTopic := "percentage_command_topic"
  const PercentageStateTopic := "percentage_state_topic"
  const Options := "options"
  const CommandTemplate := "command_template"
  const PressPayload := "press_payload"
  const OverrideKeys: seq<string> := ["name", "p", "unique_id", "default_entity_id"]

  /** The fields `addEntityConfig` writes into the template's own `entity`
      record before copying it, by kind and template id. */
  function Augment(rcv: ReceiverConfig, mqtt: MqttConfig, kind: Kind, zone: nat, t: EntityConfig)
    : (r: Result<EntityConfig, Error>)
    ensures r.Success? ==> r.value.name == t.name && r.value.id == t.id
  {
    if kind == Fan then
      Success(t.(entity := Assign(Assign(t.entity,
        PercentageCommandTopic, Str(CommandTopic(mqtt, rcv, zone))),
        PercentageStateTopic, Str(StateTopic(mqtt, rcv, zone)))))
    else if kind == Select then
      if 1 <= zone <= |rcv.zones| then
        Success(t.(entity := Assign(t.entity, Options, Strs(rcv.zones[zone - 1].sources))))
      else Failure(MissingZone(zone))
    else if t.id == "mute_toggle" then
      Success(t.(entity := Assign(t.entity, CommandTemplate, Str(MuteToggleTemplate(rcv, zone)))))
    else if t.id == "refresh" then
      Success(t.(entity := Assign(t.entity, PressPayload, Str("REFRESH"))))
    else Success(t)
  }

  /** The keys `addEntityConfig` writes into a template of `kind` whose id is
      `id`. */
  function WrittenKeys(kind: Kind, id: string): seq<string> {
    if kind == Fan then [PercentageCommandTopic, PercentageStateTopic]
    else if kind == Select then [Options]
    else if id == "mute_toggle" then [CommandTemplate]
    else if id == "refresh" then [PressPayload]
    else []
  }

  /** Augmenting a template leaves every key outside `WrittenKeys` as it was. */
  lemma AugmentKeepsOthers(rcv: ReceiverConfig, mqtt: MqttConfig, kind: Kind, zone: nat, t: EntityConfig, k: string)
    requires Augment(rcv, mqtt, kind, zone, t).Success?
    requires k !in WrittenKeys(kind, t.id)
    ensures Get(Augment(rcv, mqtt, kind, zone, t).value.entity, k) == Get(t.entity, k)
  {
    if kind == Fan {
      assert k != PercentageCommandTopic && k != PercentageStateTopic;
    }
  }

  /** The record stored in `cmps`: the (augmented) template fields spread
      first, then `name`, `p`, `unique_id` and `default_entity_id`. */
  function Component(rcv: ReceiverConfig, kind: Kind, zone: nat, compName: string, t: EntityConfig): Fields {
    var id := CompositeId(rcv, zone, t);
    Assign(Assign(Assign(Assign(t.entity,
      "name", Str(compName + " " + t.name)),
      "p", Str(kind.Name())),
      "unique_id", Str(id)),
      "default_entity_id", Str(kind.Name() + "." + id))
  }

  /** The four common fields, whatever the template holds under those names. */
  lemma ComponentFields(rcv: ReceiverConfig, kind: Kind, zone: nat, compName: string, t: EntityConfig)
    ensures var c := Component(rcv, kind, zone, compName, t);
      && Get(c, "name") == Some(Str(compName + " " + t.name))
      && Get(c, "p") == Some(Str(kind.Name()))
      && Get(c, "unique_id") == Some(Str(CompositeId(rcv, zone, t)))
      && Get(c, "default_entity_id") == Some(Str(kind.Name() + "." + CompositeId(rcv, zone, t)))
  {
    var id := CompositeId(rcv, zone, t);
    var c1 := Assign(t.entity, "name", Str(compName + " " + t.name));
    var c2 := Assign(c1, "p", Str(kind.Name()));
    var c3 := Assign(c2, "unique_id", Str(id));
    assert "name" != "p" && "name" != "unique_id" && "name" != "default_entity_id";
    assert "p" != "unique_id" && "p" != "default_entity_id" && "unique_id" != "default_entity_id";
    assert Get(c3, "name") == Get(c2, "name") == Get(c1, "name");
    assert Get(c3, "p") == Get(c2, "p");
  }

  /** Every other template field is copied unchanged. */
  lemma ComponentCopiesTemplate(rcv: ReceiverConfig, kind: Kind, zone: nat, compName: string, t: EntityConfig, k: string)
    requires k !in OverrideKeys
    ensures Get(Component(rcv, kind, zone, compName, t), k) == Get(t.entity, k)
  {
    assert k != "name" && k != "p" && k != "unique_id" && k != "default_entity_id" by {
      assert OverrideKeys == ["name", "p", "unique_id", "default_entity_id"];
    }
  }

  /** The template's own fields keep their order at the head of the record. */
  lemma ComponentKeyOrder(rcv: ReceiverConfig, kind: Kind, zone: nat, compName: string, t: EntityConfig)
    ensures var c := Component(rcv, kind, zone, compName, t);
      |Keys(t.entity)| <= |Keys(c)| && Keys(c)[..|Keys(t.entity)|] == Keys(t.entity)
  {
    var id := CompositeId(rcv, zone, t);
    var c1 := Assign(t.entity, "name", Str(compName + " " + t.name));
    var c2 := Assign(c1, "p", Str(kind.Name()));
    var c3 := Assign(c2, "unique_id", Str(id));
    var c4 := Assign(c3, "default_entity_id", Str(kind.Name() + "." + id));
    AssignKeepsKeyOrder(t.entity, "name", Str(compName + " " + t.name));
    AssignKeepsKeyOrder(c1, "p", Str(kind.Name()));
    AssignKeepsKeyOrder(c2, "unique_id", Str(id));
    AssignKeepsKeyOrder(c3, "default_entity_id", Str(kind.Name() + "." + id));
    var k0, k1, k2, k3, k4 := Keys(t.entity), Keys(c1), Keys(c2), Keys(c3), Keys(c4);
    assert k4[..|k2|] == k3[..|k2|] == k2;
    assert k4[..|k1|] == k2[..|k1|] == k1;
    assert k4[..|k0|] == k1[..|k0|] == k0;
  }

  /** One `addEntityConfig` call: the new `cmps` and the template as mutated. */
  function AddEntity(rcv: ReceiverConfig, mqtt: MqttConfig, cmps: Components, kind: Kind, zone: nat,
                     compName: string, t: EntityConfig): Result<(Components, EntityConfig), Error>
  {
    var a :- Augment(rcv, mqtt, kind, zone, t);
    Success((Assign(cmps, CompositeId(rcv, zone, t), Component(rcv, kind, zone, compName, a)), a))
  }

  /** One `addEntityConfig` call either throws as augmenting throws, or
      stores the augmented template under its entry key. */
  lemma AddEntityStep(rcv: ReceiverConfig, mqtt: MqttConfig, cmps: Components, kind: Kind, zone: nat,
                      compName: string, t: EntityConfig)
    ensures var r := AddEntity(rcv, mqtt, cmps, kind, zone, compName, t);
      var a := Augment(rcv, mqtt, kind, zone, t);
      && (a.Failure? ==> r == Failure(a.error))
      && (a.Success? ==> r == Success((Assign(cmps, EntryKey(rcv, zone)(a.value),
                                              EntryValue(rcv, kind, zone, compName)(a.value)), a.value)))
  {
  }

  /** The writes `addEntityConfig` makes into each template of one kind, in
      catalog order; the first template that throws stops the walk. */
  function AugmentEach(rcv: ReceiverConfig, mqtt: MqttConfig, kind: Kind, zone: nat, ts: seq<EntityConfig>)
    : (r: Result<seq<EntityConfig>, Error>)
    ensures r.Success? ==> |r.value| == |ts|
    ensures r.Success? ==> forall j :: 0 <= j < |ts| ==> Augment(rcv, mqtt, kind, zone, ts[j]) == Success(r.value[j])
    decreases |ts|
  {
    if ts == [] then Success([])
    else
      var n := |ts| - 1;
      var front :- AugmentEach(rcv, mqtt, kind, zone, ts[..n]);
      var last :- Augment(rcv, mqtt, kind, zone, ts[n]);
      assert forall j :: 0 <= j < n ==> ts[..n][j] == ts[j];
      Success(front + [last])
  }

  /** The key under which `addEntityConfig` stores a template. */
  function EntryKey(rcv: ReceiverConfig, zone: nat): EntityConfig -> string {
    t => CompositeId(rcv, zone, t)
  }

  /** The record `addEntityConfig` stores for an augmented template. */
  function EntryValue(rcv: ReceiverConfig, kind: Kind, zone: nat, compName: string): EntityConfig -> Fields {
    t => Component(rcv, kind, zone, compName, t)
  }

  /** One of the five `for` loops of `publish`: every template of one kind
      augmented, each stored in `cmps` under its composite id, in catalog
      order; also the templates as the loop leaves them. A throw discards the
      whole `cmps`, so augmenting all templates first and then storing them
      gives what the interleaved loop gives (`MqttHassPublisher.AddKind` is
      that loop). */
  function FillKind(rcv: ReceiverConfig, mqtt: MqttConfig, cmps: Components, kind: Kind, zone: nat,
                    compName: string, ts: seq<EntityConfig>): Result<(Components, seq<EntityConfig>), Error>
  {
    var us :- AugmentEach(rcv, mqtt, kind, zone, ts);
    Success((AssignEach(cmps, us, EntryKey(rcv, zone), EntryValue(rcv, kind, zone, compName)), us))
  }

  /** Once a template throws, the whole walk fails with its error. */
  lemma {:induction false} AugmentEachStops(rcv: ReceiverConfig, mqtt: MqttConfig, kind: Kind, zone: nat,
                                            ts: seq<EntityConfig>, i: nat)
    requires i < |ts|
    requires AugmentEach(rcv, mqtt, kind, zone, ts[..i]).Success?
    requires Augment(rcv, mqtt, kind, zone, ts[i]).Failure?
    ensures AugmentEach(rcv, mqtt, kind, zone, ts) == Failure(Augment(rcv, mqtt, kind, zone, ts[i]).error)
    decreases |ts|
  {
    var n := |ts| - 1;
    if i < n {
      assert ts[..n][..i] == ts[..i] && ts[..n][i] == ts[i];
      AugmentEachStops(rcv, mqtt, kind, zone, ts[..n], i);
    } else {
      assert ts[..n] == ts[..i];
    }
  }

  /** Walking one more template extends a successful walk by that template. */
  lemma AugmentEachSnoc(rcv: ReceiverConfig, mqtt: MqttConfig, kind: Kind, zone: nat, ts: seq<EntityConfig>, i: nat)
    requires i < |ts|
    requires AugmentEach(rcv, mqtt, kind, zone, ts[..i]).Success?
    requires Augment(rcv, mqtt, kind, zone, ts[i]).Success?
    ensures AugmentEach(rcv, mqtt, kind, zone, ts[..i + 1])
      == Success(AugmentEach(rcv, mqtt, kind, zone, ts[..i]).value + [Augment(rcv, mqtt, kind, zone, ts[i]).value])
  {
    assert ts[..i + 1][..i] == ts[..i] && ts[..i + 1][i] == ts[i];
  }

  /** The keys of the augmented templates are the composite ids of the
      templates as read: augmenting never touches `id`. */
  lemma AugmentedKeys(rcv: ReceiverConfig, mqtt: MqttConfig, kind: Kind, zone: nat, ts: seq<EntityConfig>)
    requires AugmentEach(rcv, mqtt, kind, zone, ts).Success?
    ensures KeysOf(AugmentEach(rcv, mqtt, kind, zone, ts).value, EntryKey(rcv, zone)) == CompositeIds(rcv, zone, ts)
  {
    var us := AugmentEach(rcv, mqtt, kind, zone, ts).value;
    forall j | 0 <= j < |ts|
      ensures KeysOf(us, EntryKey(rcv, zone))[j] == CompositeIds(rcv, zone, ts)[j]
    {
      assert Augment(rcv, mqtt, kind, zone, ts[j]) == Success(us[j]);
    }
  }

  /** The whole `cmps` dictionary of one zone, kinds in the order switch,
      button, sensor, fan, select, and the catalog as left by the mutations. */
  function BuildComponents(rcv: ReceiverConfig, mqtt: MqttConfig, zone: nat, compName: string, cat: EntitiesConfig)
    : Result<(Components, EntitiesConfig), Error>
  {
    var sw :- FillKind(rcv, mqtt, [], Switch, zone, compName, cat.switches);
    var bt :- FillKind(rcv, mqtt, sw.0, Button, zone, compName, cat.buttons);
    var se :- FillKind(rcv, mqtt, bt.0, Sensor, zone, compName, cat.sensors);
    var fa :- FillKind(rcv, mqtt, se.0, Fan, zone, compName, cat.fans);
    var sl :- FillKind(rcv, mqtt, fa.0, Select, zone, compName, cat.selects);
    Success((sl.0, EntitiesConfig(sw.1, bt.1, se.1, fa.1, sl.1)))
  }

  /** Augmenting a template that an earlier zone already augmented gives what
      augmenting the pristine template gives: every write lands on a key the
      earlier zone created, in the same place. */
  lemma AugmentTwice(rcv: ReceiverConfig, mqtt: MqttConfig, kind: Kind, z1: nat, z2: nat, t: EntityConfig)
    requires Augment(rcv, mqtt, kind, z1, t).Success?
    ensures Augment(rcv, mqtt, kind, z2, Augment(rcv, mqtt, kind, z1, t).value) == Augment(rcv, mqtt, kind, z2, t)
  {
    var e := t.entity;
    if kind == Fan {
      var c1, s1 := Str(CommandTopic(mqtt, rcv, z1)), Str(StateTopic(mqtt, rcv, z1));
      var c2, s2 := Str(CommandTopic(mqtt, rcv, z2)), Str(StateTopic(mqtt, rcv, z2));
      var x := Assign(e, PercentageCommandTopic, c1);
      AssignKeys(e, PercentageCommandTopic, c1);
      AssignExistingCommutes(x, PercentageCommandTopic, PercentageStateTopic, s1, c2);
      AssignTwice(e, PercentageCommandTopic, c1, c2);
      AssignTwice(Assign(e, PercentageCommandTopic, c2), PercentageStateTopic, s1, s2);
    } else if kind == Select {
      if 1 <= z2 <= |rcv.zones| {
        AssignTwice(e, Options, Strs(rcv.zones[z1 - 1].sources), Strs(rcv.zones[z2 - 1].sources));
      }
    } else if t.id == "mute_toggle" {
      AssignTwice(e, CommandTemplate, Str(MuteToggleTemplate(rcv, z1)), Str(MuteToggleTemplate(rcv, z2)));
    } else if t.id == "refresh" {
      AssignTwice(e, PressPayload, Str("REFRESH"), Str("REFRESH"));
    }
  }

  lemma AugmentEachOnAugmented(rcv: ReceiverConfig, mqtt: MqttConfig, kind: Kind, z1: nat, z2: nat,
                                ts: seq<EntityConfig>, us: seq<EntityConfig>)
    requires |us| == |ts|
    requires forall j :: 0 <= j < |ts| ==> Augment(rcv, mqtt, kind, z1, ts[j]) == Success(us[j])
    ensures AugmentEach(rcv, mqtt, kind, z2, us) == AugmentEach(rcv, mqtt, kind, z2, ts)
  {
    forall j | 0 <= j < |ts|
      ensures Augment(rcv, mqtt, kind, z2, us[j]) == Augment(rcv, mqtt, kind, z2, ts[j])
    {
      AugmentTwice(rcv, mqtt, kind, z1, z2, ts[j]);
    }
    AugmentEachPointwise(rcv, mqtt, kind, z2, ts, us);
  }

  /** The loop's outcome depends only on what each template augments to. */
  lemma {:induction false} AugmentEachPointwise(rcv: ReceiverConfig, mqtt: MqttConfig, kind: Kind, zone: nat,
                                                ts: seq<EntityConfig>, us: seq<EntityConfig>)
    requires |us| == |ts|
    requires forall j :: 0 <= j < |ts| ==> Augment(rcv, mqtt, kind, zone, us[j]) == Augment(rcv, mqtt, kind, zone, ts[j])
    ensures AugmentEach(rcv, mqtt, kind, zone, us) == AugmentEach(rcv, mqtt, kind, zone, ts)
    decreases |ts|
  {
    if ts != [] {
      var n := |ts| - 1;
      forall j | 0 <= j < n
        ensures Augment(rcv, mqtt, kind, zone, us[..n][j]) == Augment(rcv, mqtt, kind, zone, ts[..n][j])
      {
        assert ts[..n][j] == ts[j] && us[..n][j] == us[j];
      }
      AugmentEachPointwise(rcv, mqtt, kind, zone, ts[..n], us[..n]);
      AugmentEachCongruent(rcv, mqtt, kind, zone, ts, us);
    }
  }

  /** Two lists whose fronts augment alike and whose last templates augment
      alike augment alike. */
  lemma AugmentEachCongruent(rcv: ReceiverConfig, mqtt: MqttConfig, kind: Kind, zone: nat,
                             ts: seq<EntityConfig>, us: seq<EntityConfig>)
    requires 0 < |us| == |ts|
    requires AugmentEach(rcv, mqtt, kind, zone, us[..|us| - 1]) == AugmentEach(rcv, mqtt, kind, zone, ts[..|ts| - 1])
    requires Augment(rcv, mqtt, kind, zone, us[|us| - 1]) == Augment(rcv, mqtt, kind, zone, ts[|ts| - 1])
    ensures AugmentEach(rcv, mqtt, kind, zone, us) == AugmentEach(rcv, mqtt, kind, zone, ts)
  {
  }

  /** A kind's loop run on the templates an earlier zone left behind does what
      it does on the templates as read. */
  lemma FillKindOnAugmented(rcv: ReceiverConfig, mqtt: MqttConfig, cmps: Components, kind: Kind,
                            z1: nat, z2: nat, compName: string, ts: seq<EntityConfig>, us: seq<EntityConfig>)
    requires |us| == |ts|
    requires forall j :: 0 <= j < |ts| ==> Augment(rcv, mqtt, kind, z1, ts[j]) == Success(us[j])
    ensures FillKind(rcv, mqtt, cmps, kind, z2, compName, us) == FillKind(rcv, mqtt, cmps, kind, z2, compName, ts)
  {
    AugmentEachOnAugmented(rcv, mqtt, kind, z1, z2, ts, us);
  }

  /** Two catalogs no zone can tell apart: every zone's `cmps`, and the
      catalog it leaves behind, are the same from either. */
  ghost predicate Indistinguishable(rcv: ReceiverConfig, mqtt: MqttConfig, a: EntitiesConfig, b: EntitiesConfig) {
    forall zone: nat, compName: string ::
      BuildComponents(rcv, mqtt, zone, compName, a) == BuildComponents(rcv, mqtt, zone, compName, b)
  }

  /** The templates as one zone left them behave, for every later zone, like
      the templates as read from the catalog file: the in-place mutation of
      `addEntityConfig` never shows in a later payload. */
  lemma MutationInvisible(rcv: ReceiverConfig, mqtt: MqttConfig, zone: nat, compName: string, cat: EntitiesConfig)
    requires BuildComponents(rcv, mqtt, zone, compName, cat).Success?
    ensures Indistinguishable(rcv, mqtt, BuildComponents(rcv, mqtt, zone, compName, cat).value.1, cat)
  {
    var after := BuildComponents(rcv, mqtt, zone, compName, cat).value.1;
    forall z2: nat, c2: string
      ensures BuildComponents(rcv, mqtt, z2, c2, after) == BuildComponents(rcv, mqtt, z2, c2, cat)
    {
      var sw := FillKind(rcv, mqtt, [], Switch, zone, compName, cat.switches).value;
      var bt := FillKind(rcv, mqtt, sw.0, Button, zone, compName, cat.buttons).value;
      var se := FillKind(rcv, mqtt, bt.0, Sensor, zone, compName, cat.sensors).value;
      var fa := FillKind(rcv, mqtt, se.0, Fan, zone, compName, cat.fans).value;
      var sl := FillKind(rcv, mqtt, fa.0, Select, zone, compName, cat.selects).value;
      assert after == EntitiesConfig(sw.1, bt.1, se.1, fa.1, sl.1);
      var r1 := FillKind(rcv, mqtt, [], Switch, z2, c2, cat.switches);
      FillKindOnAugmented(rcv, mqtt, [], Switch, zone, z2, c2, cat.switches, sw.1);
      if r1.Success? {
        var r2 := FillKind(rcv, mqtt, r1.value.0, Button, z2, c2, cat.buttons);
        FillKindOnAugmented(rcv, mqtt, r1.value.0, Button, zone, z2, c2, cat.buttons, bt.1);
        if r2.Success? {
          var r3 := FillKind(rcv, mqtt, r2.value.0, Sensor, z2, c2, cat.sensors);
          FillKindOnAugmented(rcv, mqtt, r2.value.0, Sensor, zone, z2, c2, cat.sensors, se.1);
          if r3.Success? {
            var r4 := FillKind(rcv, mqtt, r3.value.0, Fan, z2, c2, cat.fans);
            FillKindOnAugmented(rcv, mqtt, r3.value.0, Fan, zone, z2, c2, cat.fans, fa.1);
            if r4.Success? {
              FillKindOnAugmented(rcv, mqtt, r4.value.0, Select, zone, z2, c2, cat.selects, sl.1);
            }
          }
        }
      }
    }
  }

  /** Only a select entity can fail, and only when `receiver.zones` has no
      element at `zone - 1`. */
  lemma {:induction false} AugmentEachFails(rcv: ReceiverConfig, mqtt: MqttConfig, kind: Kind, zone: nat, ts: seq<EntityConfig>)
    ensures AugmentEach(rcv, mqtt, kind, zone, ts).Failure?
        <==> kind == Select && ts != [] && !(1 <= zone <= |rcv.zones|)
    ensures AugmentEach(rcv, mqtt, kind, zone, ts).Failure?
        ==> AugmentEach(rcv, mqtt, kind, zone, ts).error == MissingZone(zone)
    decreases |ts|
  {
    if ts != [] {
      AugmentEachFails(rcv, mqtt, kind, zone, ts[..|ts| - 1]);
    }
  }

  lemma FillKindFails(rcv: ReceiverConfig, mqtt: MqttConfig, cmps: Components, kind: Kind, zone: nat,
                      compName: string, ts: seq<EntityConfig>)
    ensures FillKind(rcv, mqtt, cmps, kind, zone, compName, ts).Failure?
        <==> kind == Select && ts != [] && !(1 <= zone <= |rcv.zones|)
    ensures FillKind(rcv, mqtt, cmps, kind, zone, compName, ts).Failure?
        ==> FillKind(rcv, mqtt, cmps, kind, zone, compName, ts).error == MissingZone(zone)
  {
    AugmentEachFails(rcv, mqtt, kind, zone, ts);
  }

  lemma BuildComponentsFails(rcv: ReceiverConfig, mqtt: MqttConfig, zone: nat, compName: string, cat: EntitiesConfig)
    ensures BuildComponents(rcv, mqtt, zone, compName, cat).Failure?
        <==> |cat.selects| > 0 && !(1 <= zone <= |rcv.zones|)
    ensures BuildComponents(rcv, mqtt, zone, compName, cat).Failure?
        ==> BuildComponents(rcv, mqtt, zone, compName, cat).error == MissingZone(zone)
  {
    var r1 := FillKind(rcv, mqtt, [], Switch, zone, compName, cat.switches);
    FillKindFails(rcv, mqtt, [], Switch, zone, compName, cat.switches);
    var r2 := FillKind(rcv, mqtt, r1.value.0, Button, zone, compName, cat.buttons);
    FillKindFails(rcv, mqtt, r1.value.0, Button, zone, compName, cat.buttons);
    var r3 := FillKind(rcv, mqtt, r2.value.0, Sensor, zone, compName, cat.sensors);
    FillKindFails(rcv, mqtt, r2.value.0, Sensor, zone, compName, cat.sensors);
    var r4 := FillKind(rcv, mqtt, r3.value.0, Fan, zone, compName, cat.fans);
    FillKindFails(rcv, mqtt, r3.value.0, Fan, zone, compName, cat.fans);
    FillKindFails(rcv, mqtt, r4.value.0, Select, zone, compName, cat.selects);
  }

  function Ids(ts: seq<EntityConfig>): seq<string> {
    seq(|ts|, i requires 0 <= i < |ts| => ts[i].id)
  }

  /** The template ids of the whole catalog, in the order it is walked. */
  function AllIds(cat: EntitiesConfig): seq<string> {
    Ids(cat.switches) + Ids(cat.buttons) + Ids(cat.sensors) + Ids(cat.fans) + Ids(cat.selects)
  }

  function Prefixed(p: string, ids: seq<string>): seq<string> {
    seq(|ids|, i requires 0 <= i < |ids| => p + ids[i])
  }

  function CompositeIds(rcv: ReceiverConfig, zone: nat, ts: seq<EntityConfig>): seq<string> {
    Prefixed(DeviceId(rcv, zone) + "_", Ids(ts))
  }

  lemma PrefixedConcat(p: string, a: seq<string>, b: seq<string>)
    ensures Prefixed(p, a + b) == Prefixed(p, a) + Prefixed(p, b)
  {
    assert |Prefixed(p, a + b)| == |Prefixed(p, a) + Prefixed(p, b)|;
    forall i | 0 <= i < |a + b|
      ensures Prefixed(p, a + b)[i] == (Prefixed(p, a) + Prefixed(p, b))[i]
    {
      if i >= |a| {
        assert (a + b)[i] == b[i - |a|];
      }
    }
  }

  /** Putting the same prefix before distinct ids keeps them distinct. */
  lemma PrefixedNoDuplicates(p: string, ids: seq<string>)
    requires NoDuplicates(ids)
    ensures NoDuplicates(Prefixed(p, ids))
  {
    forall i, j | 0 <= i < j < |ids|
      ensures Prefixed(p, ids)[i] != Prefixed(p, ids)[j]
    {
      assert (p + ids[i])[|p|..] == ids[i];
      assert (p + ids[j])[|p|..] == ids[j];
    }
  }

  /** The entity ids of one zone, in the order the catalog is walked. */
  function AllCompositeIds(rcv: ReceiverConfig, zone: nat, cat: EntitiesConfig): seq<string> {
    CompositeIds(rcv, zone, cat.switches) + CompositeIds(rcv, zone, cat.buttons)
      + CompositeIds(rcv, zone, cat.sensors) + CompositeIds(rcv, zone, cat.fans)
      + CompositeIds(rcv, zone, cat.selects)
  }

  lemma AllCompositeIdsPrefixed(rcv: ReceiverConfig, zone: nat, cat: EntitiesConfig)
    ensures AllCompositeIds(rcv, zone, cat) == Prefixed(DeviceId(rcv, zone) + "_", AllIds(cat))
  {
    var p := DeviceId(rcv, zone) + "_";
    var a, b, c, d, e := Ids(cat.switches), Ids(cat.buttons), Ids(cat.sensors), Ids(cat.fans), Ids(cat.selects);
    PrefixedConcat(p, a, b);
    PrefixedConcat(p, a + b, c);
    PrefixedConcat(p, a + b + c, d);
    PrefixedConcat(p, a + b + c + d, e);
  }

  /** `p + x` is listed exactly when `x` is. */
  lemma PrefixedMember(p: string, ids: seq<string>, x: string)
    ensures p + x in Prefixed(p, ids) <==> x in ids
  {
    if p + x in Prefixed(p, ids) {
      var k :| 0 <= k < |ids| && Prefixed(p, ids)[k] == p + x;
      assert (p + ids[k])[|p|..] == ids[k];
      assert (p + x)[|p|..] == x;
    }
    if x in ids {
      var k :| 0 <= k < |ids| && ids[k] == x;
      assert Prefixed(p, ids)[k] == p + x;
    }
  }

  /** Template ids are unique across the whole catalog. */
  predicate UniqueIds(cat: EntitiesConfig) {
    NoDuplicates(AllIds(cat))
  }

  /** One kind's loop appends one key per template, in template order, after
      the keys already there. */
  lemma FillKindKeys(rcv: ReceiverConfig, mqtt: MqttConfig, cmps: Components, kind: Kind, zone: nat,
                     compName: string, ts: seq<EntityConfig>)
    requires FillKind(rcv, mqtt, cmps, kind, zone, compName, ts).Success?
    requires NoDuplicates(Keys(cmps) + CompositeIds(rcv, zone, ts))
    ensures Keys(FillKind(rcv, mqtt, cmps, kind, zone, compName, ts).value.0) == Keys(cmps) + CompositeIds(rcv, zone, ts)
  {
    var us := AugmentEach(rcv, mqtt, kind, zone, ts).value;
    AugmentedKeys(rcv, mqtt, kind, zone, ts);
    AssignEachKeys(cmps, us, EntryKey(rcv, zone), EntryValue(rcv, kind, zone, compName));
  }

  /** One kind's loop leaves every key it does not write alone. */
  lemma FillKindKeeps(rcv: ReceiverConfig, mqtt: MqttConfig, cmps: Components, kind: Kind, zone: nat,
                      compName: string, ts: seq<EntityConfig>, k: string)
    requires FillKind(rcv, mqtt, cmps, kind, zone, compName, ts).Success?
    requires k !in CompositeIds(rcv, zone, ts)
    ensures Get(FillKind(rcv, mqtt, cmps, kind, zone, compName, ts).value.0, k) == Get(cmps, k)
  {
    var us := AugmentEach(rcv, mqtt, kind, zone, ts).value;
    AugmentedKeys(rcv, mqtt, kind, zone, ts);
    AssignEachOther(cmps, us, EntryKey(rcv, zone), EntryValue(rcv, kind, zone, compName), k);
  }

  /** With distinct ids, each template of the kind ends up in `cmps` under its
      composite id, augmented and under the four common fields. */
  lemma FillKindEntries(rcv: ReceiverConfig, mqtt: MqttConfig, cmps: Components, kind: Kind, zone: nat,
                        compName: string, ts: seq<EntityConfig>, j: nat)
    requires FillKind(rcv, mqtt, cmps, kind, zone, compName, ts).Success?
    requires NoDuplicates(CompositeIds(rcv, zone, ts)) && j < |ts|
    ensures var out := FillKind(rcv, mqtt, cmps, kind, zone, compName, ts).value;
      Get(out.0, CompositeId(rcv, zone, ts[j])) == Some(Component(rcv, kind, zone, compName, out.1[j]))
  {
    var us := AugmentEach(rcv, mqtt, kind, zone, ts).value;
    AugmentedKeys(rcv, mqtt, kind, zone, ts);
    AssignEachGet(cmps, us, EntryKey(rcv, zone), EntryValue(rcv, kind, zone, compName), j);
    assert Augment(rcv, mqtt, kind, zone, ts[j]) == Success(us[j]);
  }

  /** What `addEntityConfig` stores for template `t` in `zone`: the template,
      augmented, under the four common fields; nothing when it throws. */
  function Entry(rcv: ReceiverConfig, mqtt: MqttConfig, kind: Kind, zone: nat, compName: string, t: EntityConfig)
    : Option<Fields>
  {
    match Augment(rcv, mqtt, kind, zone, t)
    case Success(a) => Some(Component(rcv, kind, zone, compName, a))
    case Failure(_) => None
  }

  /** The values `addEntityConfig` writes into a template: a fan gets the
      zone's command and state topics as its percentage topics; a select gets
      the sources of the zone listed at position `zone` as its options, and
      throws when there is none; any other template gets the zone's mute
      command template when its id is `mute_toggle`, and the press payload
      `REFRESH` when its id is `refresh`. */
  lemma AugmentWrites(rcv: ReceiverConfig, mqtt: MqttConfig, kind: Kind, zone: nat, t: EntityConfig)
    ensures var r := Augment(rcv, mqtt, kind, zone, t);
      && (kind == Fan ==>
            && r.Success?
            && Get(r.value.entity, PercentageCommandTopic) == Some(Str(CommandTopic(mqtt, rcv, zone)))
            && Get(r.value.entity, PercentageStateTopic) == Some(Str(StateTopic(mqtt, rcv, zone))))
      && (kind == Select ==> (r.Success? <==> 1 <= zone <= |rcv.zones|))
      && (kind == Select && 1 <= zone <= |rcv.zones| ==>
            Get(r.value.entity, Options) == Some(Strs(rcv.zones[zone - 1].sources)))
      && (kind != Fan && kind != Select && t.id == "mute_toggle" ==>
            r.Success? && Get(r.value.entity, CommandTemplate) == Some(Str(MuteToggleTemplate(rcv, zone))))
      && (kind != Fan && kind != Select && t.id == "refresh" ==>
            r.Success? && Get(r.value.entity, PressPayload) == Some(Str("REFRESH")))
  {
  }

  /** A value augmenting leaves under a key outside the four common fields
      is the value the stored entity has there. */
  lemma EntryHolds(rcv: ReceiverConfig, mqtt: MqttConfig, kind: Kind, zone: nat, compName: string, t: EntityConfig,
                   k: string, v: Value)
    requires Augment(rcv, mqtt, kind, zone, t).Success?
    requires k !in OverrideKeys && Get(Augment(rcv, mqtt, kind, zone, t).value.entity, k) == Some(v)
    ensures Entry(rcv, mqtt, kind, zone, compName, t).Some?
    ensures Get(Entry(rcv, mqtt, kind, zone, compName, t).value, k) == Some(v)
  {
    ComponentCopiesTemplate(rcv, kind, zone, compName, Augment(rcv, mqtt, kind, zone, t).value, k);
  }

  /** A fan entity's percentage topics are the zone's command and state
      topics. */
  lemma FanEntryTopics(rcv: ReceiverConfig, mqtt: MqttConfig, zone: nat, compName: string, t: EntityConfig)
    ensures var e := Entry(rcv, mqtt, Fan, zone, compName, t);
      && e.Some?
      && Get(e.value, PercentageCommandTopic) == Some(Str(CommandTopic(mqtt, rcv, zone)))
      && Get(e.value, PercentageStateTopic) == Some(Str(StateTopic(mqtt, rcv, zone)))
  {
    AugmentWrites(rcv, mqtt, Fan, zone, t);
    EntryHolds(rcv, mqtt, Fan, zone, compName, t, PercentageCommandTopic, Str(CommandTopic(mqtt, rcv, zone)));
    EntryHolds(rcv, mqtt, Fan, zone, compName, t, PercentageStateTopic, Str(StateTopic(mqtt, rcv, zone)));
  }

  /** A select entity exists exactly when the receiver lists a zone at
      position `zone`, and its options are that zone's sources. */
  lemma SelectEntryOptions(rcv: ReceiverConfig, mqtt: MqttConfig, zone: nat, compName: string, t: EntityConfig)
    ensures Entry(rcv, mqtt, Select, zone, compName, t).Some? <==> 1 <= zone <= |rcv.zones|
    ensures 1 <= zone <= |rcv.zones| ==>
      Get(Entry(rcv, mqtt, Select, zone, compName, t).value, Options) == Some(Strs(rcv.zones[zone - 1].sources))
  {
    AugmentWrites(rcv, mqtt, Select, zone, t);
    if 1 <= zone <= |rcv.zones| {
      EntryHolds(rcv, mqtt, Select, zone, compName, t, Options, Strs(rcv.zones[zone - 1].sources));
    }
  }

  /** A switch, button or sensor template with id `mute_toggle` gets the
      zone's mute command template. */
  lemma MuteToggleEntry(rcv: ReceiverConfig, mqtt: MqttConfig, kind: Kind, zone: nat, compName: string, t: EntityConfig)
    requires kind != Fan && kind != Select && t.id == "mute_toggle"
    ensures var e := Entry(rcv, mqtt, kind, zone, compName, t);
      e.Some? && Get(e.value, CommandTemplate) == Some(Str(MuteToggleTemplate(rcv, zone)))
  {
    AugmentWrites(rcv, mqtt, kind, zone, t);
    EntryHolds(rcv, mqtt, kind, zone, compName, t, CommandTemplate, Str(MuteToggleTemplate(rcv, zone)));
  }

  /** A switch, button or sensor template with id `refresh` gets the press
      payload `REFRESH`. */
  lemma RefreshEntry(rcv: ReceiverConfig, mqtt: MqttConfig, kind: Kind, zone: nat, compName: string, t: EntityConfig)
    requires kind != Fan && kind != Select && t.id == "refresh"
    ensures var e := Entry(rcv, mqtt, kind, zone, compName, t);
      e.Some? && Get(e.value, PressPayload) == Some(Str("REFRESH"))
  {
    AugmentWrites(rcv, mqtt, kind, zone, t);
    EntryHolds(rcv, mqtt, kind, zone, compName, t, PressPayload, Str("REFRESH"));
  }

  /** Every other key of a stored entity is the template's own: in
      particular `command_template` is written only for `mute_toggle` and
      `press_payload` only for `refresh`, and only outside fans and selects. */
  lemma EntryCopiesTemplate(rcv: ReceiverConfig, mqtt: MqttConfig, kind: Kind, zone: nat, compName: string,
                            t: EntityConfig, k: string)
    requires Entry(rcv, mqtt, kind, zone, compName, t).Some?
    requires k !in OverrideKeys && k !in WrittenKeys(kind, t.id)
    ensures Get(Entry(rcv, mqtt, kind, zone, compName, t).value, k) == Get(t.entity, k)
  {
    var a := Augment(rcv, mqtt, kind, zone, t).value;
    ComponentCopiesTemplate(rcv, kind, zone, compName, a, k);
    AugmentKeepsOthers(rcv, mqtt, kind, zone, t, k);
  }

  /** A stored record names the key it is stored under: its `unique_id` is
      the key and its `default_entity_id` is its `p`, a dot and the key. */
  predicate NamesItsKey(k: string, v: Fields) {
    && Get(v, "unique_id") == Some(Str(k))
    && Get(v, "p").Some? && Get(v, "p").value.Str?
    && Get(v, "default_entity_id") == Some(Str(Get(v, "p").value.s + "." + k))
  }

  /** One kind's loop keeps every record of `cmps` naming its own key, for
      any catalog, repeated ids included. */
  lemma FillKindNamesKeys(rcv: ReceiverConfig, mqtt: MqttConfig, cmps: Components, kind: Kind, zone: nat,
                          compName: string, ts: seq<EntityConfig>)
    requires FillKind(rcv, mqtt, cmps, kind, zone, compName, ts).Success?
    requires AllEntries(cmps, NamesItsKey)
    ensures AllEntries(FillKind(rcv, mqtt, cmps, kind, zone, compName, ts).value.0, NamesItsKey)
  {
    var us := AugmentEach(rcv, mqtt, kind, zone, ts).value;
    forall i | 0 <= i < |us|
      ensures NamesItsKey(EntryKey(rcv, zone)(us[i]), EntryValue(rcv, kind, zone, compName)(us[i]))
    {
      ComponentFields(rcv, kind, zone, compName, us[i]);
    }
    AssignEachAllEntries(cmps, us, EntryKey(rcv, zone), EntryValue(rcv, kind, zone, compName), NamesItsKey);
  }

  /** After one kind's loop a key is defined exactly when it was before or it
      is the composite id of one of the kind's templates. */
  lemma FillKindDefined(rcv: ReceiverConfig, mqtt: MqttConfig, cmps: Components, kind: Kind, zone: nat,
                        compName: string, ts: seq<EntityConfig>)
    requires FillKind(rcv, mqtt, cmps, kind, zone, compName, ts).Success?
    ensures forall k :: (Get(FillKind(rcv, mqtt, cmps, kind, zone, compName, ts).value.0, k).Some?
                         <==> Get(cmps, k).Some? || k in CompositeIds(rcv, zone, ts))
  {
    var us := AugmentEach(rcv, mqtt, kind, zone, ts).value;
    AugmentedKeys(rcv, mqtt, kind, zone, ts);
    forall k
      ensures Get(AssignEach(cmps, us, EntryKey(rcv, zone), EntryValue(rcv, kind, zone, compName)), k).Some?
        <==> Get(cmps, k).Some? || k in CompositeIds(rcv, zone, ts)
    {
      AssignEachDefined(cmps, us, EntryKey(rcv, zone), EntryValue(rcv, kind, zone, compName), k);
    }
  }

  /** With template ids unique in the catalog, a zone's `cmps` has exactly one
      key per template, `{receiver.id}_{zoneId}_{template.id}`, in the order
      switches, buttons, sensors, fans, selects. */
  lemma BuildComponentsKeys(rcv: ReceiverConfig, mqtt: MqttConfig, zone: nat, compName: string, cat: EntitiesConfig)
    requires BuildComponents(rcv, mqtt, zone, compName, cat).Success?
    requires UniqueIds(cat)
    ensures Keys(BuildComponents(rcv, mqtt, zone, compName, cat).value.0) == AllCompositeIds(rcv, zone, cat)
  {
    var sw := FillKind(rcv, mqtt, [], Switch, zone, compName, cat.switches).value;
    var bt := FillKind(rcv, mqtt, sw.0, Button, zone, compName, cat.buttons).value;
    var se := FillKind(rcv, mqtt, bt.0, Sensor, zone, compName, cat.sensors).value;
    var fa := FillKind(rcv, mqtt, se.0, Fan, zone, compName, cat.fans).value;
    var a, b, c, d, e := CompositeIds(rcv, zone, cat.switches), CompositeIds(rcv, zone, cat.buttons),
      CompositeIds(rcv, zone, cat.sensors), CompositeIds(rcv, zone, cat.fans), CompositeIds(rcv, zone, cat.selects);
    AllCompositeIdsPrefixed(rcv, zone, cat);
    PrefixedNoDuplicates(DeviceId(rcv, zone) + "_", AllIds(cat));
    NoDuplicatesPrefix(a + b + c + d, e);
    NoDuplicatesPrefix(a + b + c, d);
    NoDuplicatesPrefix(a + b, c);
    NoDuplicatesPrefix(a, b);
    var none: Components := [];
    assert Keys(none) + a == a;
    FillKindKeys(rcv, mqtt, [], Switch, zone, compName, cat.switches);
    FillKindKeys(rcv, mqtt, sw.0, Button, zone, compName, cat.buttons);
    FillKindKeys(rcv, mqtt, bt.0, Sensor, zone, compName, cat.sensors);
    FillKindKeys(rcv, mqtt, se.0, Fan, zone, compName, cat.fans);
    FillKindKeys(rcv, mqtt, fa.0, Select, zone, compName, cat.selects);
  }

  /** With template ids unique in the catalog, the key of every template holds
      that template augmented for this zone under the four common fields. */
  lemma BuildComponentsEntries(rcv: ReceiverConfig, mqtt: MqttConfig, zone: nat, compName: string, cat: EntitiesConfig)
    requires BuildComponents(rcv, mqtt, zone, compName, cat).Success?
    requires UniqueIds(cat)
    ensures forall kind: Kind, t :: t in Templates(cat, kind) ==>
      Get(BuildComponents(rcv, mqtt, zone, compName, cat).value.0, CompositeId(rcv, zone, t))
        == Entry(rcv, mqtt, kind, zone, compName, t)
  {
    AllCompositeIdsPrefixed(rcv, zone, cat);
    PrefixedNoDuplicates(DeviceId(rcv, zone) + "_", AllIds(cat));
    forall kind: Kind, t | t in Templates(cat, kind)
      ensures Get(BuildComponents(rcv, mqtt, zone, compName, cat).value.0, CompositeId(rcv, zone, t))
        == Entry(rcv, mqtt, kind, zone, compName, t)
    {
      var j :| 0 <= j < |Templates(cat, kind)| && Templates(cat, kind)[j] == t;
      ContentsOfKind(rcv, mqtt, zone, compName, cat, kind, j);
    }
  }

  /** `BuildComponentsEntries` for one template. */
  lemma BuildComponentsEntry(rcv: ReceiverConfig, mqtt: MqttConfig, zone: nat, compName: string, cat: EntitiesConfig,
                             kind: Kind, t: EntityConfig)
    requires BuildComponents(rcv, mqtt, zone, compName, cat).Success?
    requires UniqueIds(cat)
    requires t in Templates(cat, kind)
    ensures Get(BuildComponents(rcv, mqtt, zone, compName, cat).value.0, CompositeId(rcv, zone, t))
      == Entry(rcv, mqtt, kind, zone, compName, t)
  {
    BuildComponentsEntries(rcv, mqtt, zone, compName, cat);
  }

  /** For any catalog, repeated ids included, a zone's `cmps` defines exactly
      the composite ids of the catalog's templates. */
  lemma BuildComponentsDefined(rcv: ReceiverConfig, mqtt: MqttConfig, zone: nat, compName: string, cat: EntitiesConfig)
    requires BuildComponents(rcv, mqtt, zone, compName, cat).Success?
    ensures forall k :: (Get(BuildComponents(rcv, mqtt, zone, compName, cat).value.0, k).Some?
                         <==> k in AllCompositeIds(rcv, zone, cat))
  {
    var sw := FillKind(rcv, mqtt, [], Switch, zone, compName, cat.switches).value;
    var bt := FillKind(rcv, mqtt, sw.0, Button, zone, compName, cat.buttons).value;
    var se := FillKind(rcv, mqtt, bt.0, Sensor, zone, compName, cat.sensors).value;
    var fa := FillKind(rcv, mqtt, se.0, Fan, zone, compName, cat.fans).value;
    FillKindDefined(rcv, mqtt, [], Switch, zone, compName, cat.switches);
    FillKindDefined(rcv, mqtt, sw.0, Button, zone, compName, cat.buttons);
    FillKindDefined(rcv, mqtt, bt.0, Sensor, zone, compName, cat.sensors);
    FillKindDefined(rcv, mqtt, se.0, Fan, zone, compName, cat.fans);
    FillKindDefined(rcv, mqtt, fa.0, Select, zone, compName, cat.selects);
  }

  /** For any catalog, repeated ids included, every record of a zone's `cmps`
      names the key it is stored under. */
  lemma BuildComponentsNamesKeys(rcv: ReceiverConfig, mqtt: MqttConfig, zone: nat, compName: string, cat: EntitiesConfig)
    requires BuildComponents(rcv, mqtt, zone, compName, cat).Success?
    ensures AllEntries(BuildComponents(rcv, mqtt, zone, compName, cat).value.0, NamesItsKey)
  {
    var sw := FillKind(rcv, mqtt, [], Switch, zone, compName, cat.switches).value;
    var bt := FillKind(rcv, mqtt, sw.0, Button, zone, compName, cat.buttons).value;
    var se := FillKind(rcv, mqtt, bt.0, Sensor, zone, compName, cat.sensors).value;
    var fa := FillKind(rcv, mqtt, se.0, Fan, zone, compName, cat.fans).value;
    var none: Components := [];
    assert AllEntries(none, NamesItsKey);
    FillKindNamesKeys(rcv, mqtt, [], Switch, zone, compName, cat.switches);
    FillKindNamesKeys(rcv, mqtt, sw.0, Button, zone, compName, cat.buttons);
    FillKindNamesKeys(rcv, mqtt, bt.0, Sensor, zone, compName, cat.sensors);
    FillKindNamesKeys(rcv, mqtt, se.0, Fan, zone, compName, cat.fans);
    FillKindNamesKeys(rcv, mqtt, fa.0, Select, zone, compName, cat.selects);
  }

  /** For any catalog, a key `{device id}_{x}` for an `x` that is no
      template's id is not in the zone's `cmps`. */
  lemma BuildComponentsAbsent(rcv: ReceiverConfig, mqtt: MqttConfig, zone: nat, compName: string, cat: EntitiesConfig,
                              x: string)
    requires BuildComponents(rcv, mqtt, zone, compName, cat).Success?
    requires x !in AllIds(cat)
    ensures Get(BuildComponents(rcv, mqtt, zone, compName, cat).value.0, DeviceId(rcv, zone) + "_" + x) == None
  {
    var pre := DeviceId(rcv, zone) + "_";
    BuildComponentsDefined(rcv, mqtt, zone, compName, cat);
    AllCompositeIdsPrefixed(rcv, zone, cat);
    PrefixedMember(pre, AllIds(cat), x);
  }

  /** With unique template ids, every fan of the catalog is stored with the
      zone's command and state topics as its percentage topics. */
  lemma FanTopicsInCmps(rcv: ReceiverConfig, mqtt: MqttConfig, zone: nat, compName: string, cat: EntitiesConfig,
                        t: EntityConfig)
    requires BuildComponents(rcv, mqtt, zone, compName, cat).Success?
    requires UniqueIds(cat)
    requires t in cat.fans
    ensures var e := Get(BuildComponents(rcv, mqtt, zone, compName, cat).value.0, CompositeId(rcv, zone, t));
      && e.Some?
      && Get(e.value, PercentageCommandTopic) == Some(Str(CommandTopic(mqtt, rcv, zone)))
      && Get(e.value, PercentageStateTopic) == Some(Str(StateTopic(mqtt, rcv, zone)))
  {
    BuildComponentsEntry(rcv, mqtt, zone, compName, cat, Fan, t);
    FanEntryTopics(rcv, mqtt, zone, compName, t);
  }

  /** With unique template ids, a zone whose loops store a select is listed
      at position `zone`, and every select of the catalog is stored with
      that listed zone's sources as its options. */
  lemma SelectOptionsInCmps(rcv: ReceiverConfig, mqtt: MqttConfig, zone: nat, compName: string, cat: EntitiesConfig,
                            t: EntityConfig)
    requires BuildComponents(rcv, mqtt, zone, compName, cat).Success?
    requires UniqueIds(cat)
    requires t in cat.selects
    ensures 1 <= zone <= |rcv.zones|
    ensures var e := Get(BuildComponents(rcv, mqtt, zone, compName, cat).value.0, CompositeId(rcv, zone, t));
      && e.Some?
      && Get(e.value, Options) == Some(Strs(rcv.zones[zone - 1].sources))
  {
    SelectZoneListed(rcv, mqtt, zone, compName, cat);
    var en := Entry(rcv, mqtt, Select, zone, compName, t);
    SelectEntryOptions(rcv, mqtt, zone, compName, t);
    assert en.Some? && Get(en.value, Options) == Some(Strs(rcv.zones[zone - 1].sources));
    assert Templates(cat, Select) == cat.selects;
    BuildComponentsEntry(rcv, mqtt, zone, compName, cat, Select, t);
  }

  /** A zone whose loops store a select is listed at position `zone`. */
  lemma SelectZoneListed(rcv: ReceiverConfig, mqtt: MqttConfig, zone: nat, compName: string, cat: EntitiesConfig)
    requires BuildComponents(rcv, mqtt, zone, compName, cat).Success?
    requires |cat.selects| > 0
    ensures 1 <= zone <= |rcv.zones|
  {
    BuildComponentsFails(rcv, mqtt, zone, compName, cat);
  }

  /** Every template's composite id is among the zone's keys. */
  lemma CompositeIdListed(rcv: ReceiverConfig, zone: nat, cat: EntitiesConfig, kind: Kind, j: nat)
    requires j < |Templates(cat, kind)|
    ensures CompositeId(rcv, zone, Templates(cat, kind)[j]) in AllCompositeIds(rcv, zone, cat)
  {
    var ids := CompositeIds(rcv, zone, Templates(cat, kind));
    assert ids[j] == CompositeId(rcv, zone, Templates(cat, kind)[j]);
  }

  /** The entry stored for a template names it `{kind}.{composite id}`. */
  lemma EntryDefaultId(rcv: ReceiverConfig, mqtt: MqttConfig, kind: Kind, zone: nat, compName: string, t: EntityConfig)
    requires Entry(rcv, mqtt, kind, zone, compName, t).Some?
    ensures Get(Entry(rcv, mqtt, kind, zone, compName, t).value, "default_entity_id")
      == Some(Str(kind.Name() + "." + CompositeId(rcv, zone, t)))
  {
    var a := Augment(rcv, mqtt, kind, zone, t).value;
    ComponentFields(rcv, kind, zone, compName, a);
  }

  /** Every template is in the zone's `cmps` under its composite id, with
      `default_entity_id` `{kind}.{composite id}`. */
  lemma ComponentOfTemplate(rcv: ReceiverConfig, mqtt: MqttConfig, zone: nat, compName: string, cat: EntitiesConfig,
                            kind: Kind, t: EntityConfig)
    requires BuildComponents(rcv, mqtt, zone, compName, cat).Success?
    requires UniqueIds(cat)
    requires t in Templates(cat, kind)
    ensures var entry := Get(BuildComponents(rcv, mqtt, zone, compName, cat).value.0, CompositeId(rcv, zone, t));
      && entry.Some?
      && Get(entry.value, "default_entity_id") == Some(Str(kind.Name() + "." + CompositeId(rcv, zone, t)))
  {
    var cmps := BuildComponents(rcv, mqtt, zone, compName, cat).value.0;
    BuildComponentsKeys(rcv, mqtt, zone, compName, cat);
    BuildComponentsEntries(rcv, mqtt, zone, compName, cat);
    var j :| 0 <= j < |Templates(cat, kind)| && Templates(cat, kind)[j] == t;
    CompositeIdListed(rcv, zone, cat, kind, j);
    GetIffKey(cmps, CompositeId(rcv, zone, t));
    assert Get(cmps, CompositeId(rcv, zone, t)) == Entry(rcv, mqtt, kind, zone, compName, t);
    EntryDefaultId(rcv, mqtt, kind, zone, compName, t);
  }

  lemma ContentsOfKind(rcv: ReceiverConfig, mqtt: MqttConfig, zone: nat, compName: string, cat: EntitiesConfig, kind: Kind, j: nat)
    requires BuildComponents(rcv, mqtt, zone, compName, cat).Success?
    requires NoDuplicates(AllCompositeIds(rcv, zone, cat))
    requires j < |Templates(cat, kind)|
    ensures Get(BuildComponents(rcv, mqtt, zone, compName, cat).value.0, CompositeId(rcv, zone, Templates(cat, kind)[j]))
      == Entry(rcv, mqtt, kind, zone, compName, Templates(cat, kind)[j])
  {
    match kind
    case Switch => ContentsOfSwitch(rcv, mqtt, zone, compName, cat, j);
    case Button => ContentsOfButton(rcv, mqtt, zone, compName, cat, j);
    case Sensor => ContentsOfSensor(rcv, mqtt, zone, compName, cat, j);
    case Fan => ContentsOfFan(rcv, mqtt, zone, compName, cat, j);
    case Select => ContentsOfSelect(rcv, mqtt, zone, compName, cat, j);
  }

  lemma ContentsOfSwitch(rcv: ReceiverConfig, mqtt: MqttConfig, zone: nat, compName: string, cat: EntitiesConfig, j: nat)
    requires BuildComponents(rcv, mqtt, zone, compName, cat).Success?
    requires NoDuplicates(AllCompositeIds(rcv, zone, cat))
    requires j < |cat.switches|
    ensures Get(BuildComponents(rcv, mqtt, zone, compName, cat).value.0, CompositeId(rcv, zone, cat.switches[j]))
      == Entry(rcv, mqtt, Switch, zone, compName, cat.switches[j])
  {
    var sw := FillKind(rcv, mqtt, [], Switch, zone, compName, cat.switches).value;
    var bt := FillKind(rcv, mqtt, sw.0, Button, zone, compName, cat.buttons).value;
    var se := FillKind(rcv, mqtt, bt.0, Sensor, zone, compName, cat.sensors).value;
    var fa := FillKind(rcv, mqtt, se.0, Fan, zone, compName, cat.fans).value;
    var sl := FillKind(rcv, mqtt, fa.0, Select, zone, compName, cat.selects).value;
    var a, b, c, d, e := CompositeIds(rcv, zone, cat.switches), CompositeIds(rcv, zone, cat.buttons),
      CompositeIds(rcv, zone, cat.sensors), CompositeIds(rcv, zone, cat.fans), CompositeIds(rcv, zone, cat.selects);
    assert BuildComponents(rcv, mqtt, zone, compName, cat).value.0 == sl.0;
    var id := CompositeId(rcv, zone, cat.switches[j]);
    assert id == a[j];
    NoDuplicatesPrefix(a + b + c + d, e);
    NoDuplicatesPrefix(a + b + c, d);
    NoDuplicatesPrefix(a + b, c);
    NoDuplicatesPrefix(a, b);
    FillKindEntries(rcv, mqtt, [], Switch, zone, compName, cat.switches, j);
    NoDuplicatesDisjoint(a, b, id);
    FillKindKeeps(rcv, mqtt, sw.0, Button, zone, compName, cat.buttons, id);
    NoDuplicatesDisjoint(a + b, c, id);
    FillKindKeeps(rcv, mqtt, bt.0, Sensor, zone, compName, cat.sensors, id);
    NoDuplicatesDisjoint(a + b + c, d, id);
    FillKindKeeps(rcv, mqtt, se.0, Fan, zone, compName, cat.fans, id);
    NoDuplicatesDisjoint(a + b + c + d, e, id);
    FillKindKeeps(rcv, mqtt, fa.0, Select, zone, compName, cat.selects, id);
  }

  lemma ContentsOfButton(rcv: ReceiverConfig, mqtt: MqttConfig, zone: nat, compName: string, cat: EntitiesConfig, j: nat)
    requires BuildComponents(rcv, mqtt, zone, compName, cat).Success?
    requires NoDuplicates(AllCompositeIds(rcv, zone, cat))
    requires j < |cat.buttons|
    ensures Get(BuildComponents(rcv, mqtt, zone, compName, cat).value.0, CompositeId(rcv, zone, cat.buttons[j]))
      == Entry(rcv, mqtt, Button, zone, compName, cat.buttons[j])
  {
    var sw := FillKind(rcv, mqtt, [], Switch, zone, compName, cat.switches).value;
    var bt := FillKind(rcv, mqtt, sw.0, Button, zone, compName, cat.buttons).value;
    var se := FillKind(rcv, mqtt, bt.0, Sensor, zone, compName, cat.sensors).value;
    var fa := FillKind(rcv, mqtt, se.0, Fan, zone, compName, cat.fans).value;
    var sl := FillKind(rcv, mqtt, fa.0, Select, zone, compName, cat.selects).value;
    var a, b, c, d, e := CompositeIds(rcv, zone, cat.switches), CompositeIds(rcv, zone, cat.buttons),
      CompositeIds(rcv, zone, cat.sensors), CompositeIds(rcv, zone, cat.fans), CompositeIds(rcv, zone, cat.selects);
    assert BuildComponents(rcv, mqtt, zone, compName, cat).value.0 == sl.0;
    var id := CompositeId(rcv, zone, cat.buttons[j]);
    assert id == b[j];
    NoDuplicatesPrefix(a + b + c + d, e);
    NoDuplicatesPrefix(a + b + c, d);
    NoDuplicatesPrefix(a + b, c);
    NoDuplicatesSuffix(a, b);
    FillKindEntries(rcv, mqtt, sw.0, Button, zone, compName, cat.buttons, j);
    NoDuplicatesDisjoint(a + b, c, id);
    FillKindKeeps(rcv, mqtt, bt.0, Sensor, zone, compName, cat.sensors, id);
    NoDuplicatesDisjoint(a + b + c, d, id);
    FillKindKeeps(rcv, mqtt, se.0, Fan, zone, compName, cat.fans, id);
    NoDuplicatesDisjoint(a + b + c + d, e, id);
    FillKindKeeps(rcv, mqtt, fa.0, Select, zone, compName, cat.selects, id);
  }

  lemma ContentsOfSensor(rcv: ReceiverConfig, mqtt: MqttConfig, zone: nat, compName: string, cat: EntitiesConfig, j: nat)
    requires BuildComponents(rcv, mqtt, zone, compName, cat).Success?
    requires NoDuplicates(AllCompositeIds(rcv, zone, cat))
    requires j < |cat.sensors|
    ensures Get(BuildComponents(rcv, mqtt, zone, compName, cat).value.0, CompositeId(rcv, zone, cat.sensors[j]))
      == Entry(rcv, mqtt, Sensor, zone, compName, cat.sensors[j])
  {
    var sw := FillKind(rcv, mqtt, [], Switch, zone, compName, cat.switches).value;
    var bt := FillKind(rcv, mqtt, sw.0, Button, zone, compName, cat.buttons).value;
    var se := FillKind(rcv, mqtt, bt.0, Sensor, zone, compName, cat.sensors).value;
    var fa := FillKind(rcv, mqtt, se.0, Fan, zone, compName, cat.fans).value;
    var sl := FillKind(rcv, mqtt, fa.0, Select, zone, compName, cat.selects).value;
    var a, b, c, d, e := CompositeIds(rcv, zone, cat.switches), CompositeIds(rcv, zone, cat.buttons),
      CompositeIds(rcv, zone, cat.sensors), CompositeIds(rcv, zone, cat.fans), CompositeIds(rcv, zone, cat.selects);
    assert BuildComponents(rcv, mqtt, zone, compName, cat).value.0 == sl.0;
    var id := CompositeId(rcv, zone, cat.sensors[j]);
    assert id == c[j];
    NoDuplicatesPrefix(a + b + c + d, e);
    NoDuplicatesPrefix(a + b + c, d);
    NoDuplicatesSuffix(a + b, c);
    FillKindEntries(rcv, mqtt, bt.0, Sensor, zone, compName, cat.sensors, j);
    NoDuplicatesDisjoint(a + b + c, d, id);
    FillKindKeeps(rcv, mqtt, se.0, Fan, zone, compName, cat.fans, id);
    NoDuplicatesDisjoint(a + b + c + d, e, id);
    FillKindKeeps(rcv, mqtt, fa.0, Select, zone, compName, cat.selects, id);
  }

  lemma ContentsOfFan(rcv: ReceiverConfig, mqtt: MqttConfig, zone: nat, compName: string, cat: EntitiesConfig, j: nat)
    requires BuildComponents(rcv, mqtt, zone, compName, cat).Success?
    requires NoDuplicates(AllCompositeIds(rcv, zone, cat))
    requires j < |cat.fans|
    ensures Get(BuildComponents(rcv, mqtt, zone, compName, cat).value.0, CompositeId(rcv, zone, cat.fans[j]))
      == Entry(rcv, mqtt, Fan, zone, compName, cat.fans[j])
  {
    var sw := FillKind(rcv, mqtt, [], Switch, zone, compName, cat.switches).value;
    var bt := FillKind(rcv, mqtt, sw.0, Button, zone, compName, cat.buttons).value;
    var se := FillKind(rcv, mqtt, bt.0, Sensor, zone, compName, cat.sensors).value;
    var fa := FillKind(rcv, mqtt, se.0, Fan, zone, compName, cat.fans).value;
    var sl := FillKind(rcv, mqtt, fa.0, Select, zone, compName, cat.selects).value;
    var a, b, c, d, e := CompositeIds(rcv, zone, cat.switches), CompositeIds(rcv, zone, cat.buttons),
      CompositeIds(rcv, zone, cat.sensors), CompositeIds(rcv, zone, cat.fans), CompositeIds(rcv, zone, cat.selects);
    assert BuildComponents(rcv, mqtt, zone, compName, cat).value.0 == sl.0;
    var id := CompositeId(rcv, zone, cat.fans[j]);
    assert id == d[j];
    NoDuplicatesPrefix(a + b + c + d, e);
    NoDuplicatesSuffix(a + b + c, d);
    FillKindEntries(rcv, mqtt, se.0, Fan, zone, compName, cat.fans, j);
    NoDuplicatesDisjoint(a + b + c + d, e, id);
    FillKindKeeps(rcv, mqtt, fa.0, Select, zone, compName, cat.selects, id);
  }

  lemma ContentsOfSelect(rcv: ReceiverConfig, mqtt: MqttConfig, zone: nat, compName: string, cat: EntitiesConfig, j: nat)
    requires BuildComponents(rcv, mqtt, zone, compName, cat).Success?
    requires NoDuplicates(AllCompositeIds(rcv, zone, cat))
    requires j < |cat.selects|
    ensures Get(BuildComponents(rcv, mqtt, zone, compName, cat).value.0, CompositeId(rcv, zone, cat.selects[j]))
      == Entry(rcv, mqtt, Select, zone, compName, cat.selects[j])
  {
    var sw := FillKind(rcv, mqtt, [], Switch, zone, compName, cat.switches).value;
    var bt := FillKind(rcv, mqtt, sw.0, Button, zone, compName, cat.buttons).value;
    var se := FillKind(rcv, mqtt, bt.0, Sensor, zone, compName, cat.sensors).value;
    var fa := FillKind(rcv, mqtt, se.0, Fan, zone, compName, cat.fans).value;
    var sl := FillKind(rcv, mqtt, fa.0, Select, zone, compName, cat.selects).value;
    var a, b, c, d, e := CompositeIds(rcv, zone, cat.switches), CompositeIds(rcv, zone, cat.buttons),
      CompositeIds(rcv, zone, cat.sensors), CompositeIds(rcv, zone, cat.fans), CompositeIds(rcv, zone, cat.selects);
    assert BuildComponents(rcv, mqtt, zone, compName, cat).value.0 == sl.0;
    var id := CompositeId(rcv, zone, cat.selects[j]);
    assert id == e[j];
    NoDuplicatesSuffix(a + b + c + d, e);
    FillKindEntries(rcv, mqtt, fa.0, Select, zone, compName, cat.selects, j);
  }
}
