/** `appendMediaPlayerConfig`: the YAML block of one zone's universal media
    player, and how its entity references meet the entities of the zone's
    discovery payload (src/MqttHassPublisher.ts). */
module MediaPlayer {
  import opened Wrappers
  import opened Decimal
  import opened JsRecord
  import opened Discovery
  import opened ZonePayload

  /** A piece of the block: the `n`-th run of literal text, the `name` or
      `id` argument, or a reference `{kind}.{id}_{suffix}` to an entity of the
      zone. */
  datatype Piece = Text(n: nat) | NameHole | IdHole | Ref(kind: Kind, suffix: string)

  /** The entity id the block refers to for `kind` and `suffix`. */
  function RefText(kind: Kind, id: string, suffix: string): string {
    kind.Name() + "." + id + "_" + suffix
  }

  function RenderPiece(p: Piece, name: string, id: string): string {
    match p
    case Text(n) => TextOf(n)
    case NameHole => name
    case IdHole => id
    case Ref(kind, suffix) => RefText(kind, id, suffix)
  }

  /** The texts of the items of `ps` under `f`, one after the other. */
  function Join<T>(ps: seq<T>, f: T -> string): string
    decreases |ps|
  {
    if ps == [] then "" else f(ps[0]) + Join(ps[1..], f)
  }

  function Renderer(name: string, id: string): Piece -> string {
    p => RenderPiece(p, name, id)
  }

  function Render(ps: seq<Piece>, name: string, id: string): string {
    Join(ps, Renderer(name, id))
  }

  /** The runs of literal text of the block, in order. */
  function TextOf(n: nat): string {
    if n == 0 then "  - platform: universal\n    name: "
    else if n == 1 then " Audio\n    default_entity_id: media_player."
    else if n == 2 then "_media_player\n    unique_id: "
    else if n == 3 then "_media_player\n    commands:\n      turn_on:\n        action: switch.turn_on\n        target:\n          entity_id: "
    else if n == 4 then "\n      turn_off:\n        action: switch.turn_off\n        target:\n          entity_id: "
    else if n == 5 then "\n      volume_up:\n        action: button.press\n        target:\n          entity_id: "
    else if n == 6 then "\n      volume_down:\n        action: button.press\n        target:\n          entity_id: "
    else if n == 7 then "\n      volume_mute:\n        action: button.press\n        target:\n          entity_id: "
    else if n == 8 then "\n      volume_set:\n        action: fan.set_percentage\n        target:\n          entity_id: "
    else if n == 9 then "\n        data:\n          percentage: \"{{ (volume_level | float)*100 }}\"\n\n    attributes:\n      state: "
    else if n == 10 then "\n      is_volume_muted: "
    else if n == 11 then "\n      volume_level: "
    else if n == 12 then "\n      source_list: "
    else if n == 13 then "|options\n      source: state."
    else ".state\n"
  }

  /** The block, exactly as the template literal spells it. */
  const Block: seq<Piece> := [
    Text(0), NameHole,
    Text(1), IdHole,
    Text(2), IdHole,
    Text(3),
    Ref(Switch, "power"),
    Text(4),
    Ref(Switch, "power"),
    Text(5),
    Ref(Button, "volume_up"),
    Text(6),
    Ref(Button, "volume_down"),
    Text(7),
    Ref(Button, "mute_toggle"),
    Text(8),
    Ref(Fan, "volume"),
    Text(9),
    Ref(Switch, "power"),
    Text(10),
    Ref(Switch, "mute"),
    Text(11),
    Ref(Sensor, "volume_percent"),
    Text(12),
    Ref(Select, "source"),
    Text(13),
    Ref(Select, "source"),
    Text(14)
  ]

  /** The text `appendMediaPlayerConfig(name, id, zone)` appends; `zone` is
      not used. */
  function MediaPlayerConfig(name: string, id: string, zone: string): string {
    Render(Block, name, id)
  }

  /** The (kind, suffix) pairs the block refers to. */
  function BlockRefs(): set<(Kind, string)> {
    set i | 0 <= i < |Block| && Block[i].Ref? :: (Block[i].kind, Block[i].suffix)
  }

  lemma {:induction false} JoinConcat<T>(a: seq<T>, b: seq<T>, f: T -> string)
    ensures Join(a + b, f) == Join(a, f) + Join(b, f)
    decreases |a|
  {
    if a != [] {
      assert (a + b)[1..] == a[1..] + b;
      JoinConcat(a[1..], b, f);
    } else {
      assert a + b == b;
    }
  }

  /** Every item's text stands in the joined text, between the texts of the
      items before it and of those after it. */
  lemma JoinSplit<T>(ps: seq<T>, i: nat, f: T -> string)
    requires i < |ps|
    ensures Join(ps, f) == Join(ps[..i], f) + f(ps[i]) + Join(ps[i + 1..], f)
  {
    var pre, x, post := ps[..i], ps[i], ps[i + 1..];
    SplitAt(ps, i);
    JoinConcat(pre, [x] + post, f);
    JoinConcat([x], post, f);
    JoinSingle(x, f);
  }

  lemma SplitAt<T>(ps: seq<T>, i: nat)
    requires i < |ps|
    ensures ps == ps[..i] + ([ps[i]] + ps[i + 1..])
  {
  }

  lemma JoinSingle<T>(x: T, f: T -> string)
    ensures Join([x], f) == f(x)
  {
    assert [x][1..] == [];
  }

  /** The block refers to exactly the power, volume-up, volume-down,
      mute-toggle, volume, mute, volume-percent and source entities, each of
      the kind the catalog gives it. */
  lemma BlockRefsAre()
    ensures BlockRefs() == {(Switch, "power"), (Button, "volume_up"), (Button, "volume_down"),
                            (Button, "mute_toggle"), (Fan, "volume"), (Switch, "mute"),
                            (Sensor, "volume_percent"), (Select, "source")}
  {
    assert Block[7] == Ref(Switch, "power");
    assert Block[11] == Ref(Button, "volume_up");
    assert Block[13] == Ref(Button, "volume_down");
    assert Block[15] == Ref(Button, "mute_toggle");
    assert Block[17] == Ref(Fan, "volume");
    assert Block[21] == Ref(Switch, "mute");
    assert Block[23] == Ref(Sensor, "volume_percent");
    assert Block[25] == Ref(Select, "source");
  }

  /** Items whose first text opens with `  - ` and whose last text ends with
      a newline join to text that does. */
  lemma JoinFraming<T>(ps: seq<T>, f: T -> string)
    requires |ps| > 1
    requires var first := f(ps[0]); |first| >= 4 && first[..4] == "  - "
    requires var last := f(ps[|ps| - 1]); |last| > 0 && last[|last| - 1] == '\n'
    ensures var text := Join(ps, f);
      |text| >= 4 && text[..4] == "  - " && text[|text| - 1] == '\n'
  {
    var n := |ps| - 1;
    var text := Join(ps, f);
    JoinSplit(ps, n, f);
    assert ps[n + 1..] == [];
    assert text == Join(ps[..n], f) + f(ps[n]);
    assert text == f(ps[0]) + Join(ps[1..], f);
  }

  lemma FirstTextOpensItem()
    ensures var first := TextOf(0); |first| >= 4 && first[..4] == "  - "
  {
    assert TextOf(0) == "  - platform: universal\n    name: ";
  }

  lemma LastTextEndsLine()
    ensures var last := TextOf(14); |last| > 0 && last[|last| - 1] == '\n'
  {
    assert TextOf(14) == ".state\n";
  }

  /** A block is one YAML list item: it opens with `  - ` and ends with a
      newline, so appended blocks never run into each other. */
  lemma BlockFraming(name: string, id: string, zone: string)
    ensures var text := MediaPlayerConfig(name, id, zone);
      |text| >= 4 && text[..4] == "  - " && text[|text| - 1] == '\n'
  {
    assert Block[0] == Text(0) && Block[|Block| - 1] == Text(14);
    FirstTextOpensItem();
    LastTextEndsLine();
    JoinFraming(Block, Renderer(name, id));
  }

  /** Where reference `i` stands in the text of a block. */
  lemma BlockMentions(i: nat, name: string, id: string, zone: string)
    requires i < |Block| && Block[i].Ref?
    ensures MediaPlayerConfig(name, id, zone)
      == Render(Block[..i], name, id) + RefText(Block[i].kind, id, Block[i].suffix) + Render(Block[i + 1..], name, id)
  {
    JoinSplit(Block, i, Renderer(name, id));
  }

  /** With unique template ids, each entity the block for a zone refers to is
      the `default_entity_id` of an entity of that zone's own discovery
      payload, provided the catalog supplies the reference's suffix as the id
      of a template of the kind the block expects. */
  lemma BlockReferenceResolves(rcv: ReceiverConfig.ReceiverConfig, mqtt: MqttConfig, hass: HomeAssistantConfig,
                               cat: EntitiesConfig, z: ReceiverConfig.ZoneConfig, kind: Kind, t: EntityConfig)
    requires IsDecimal(z.index)
    requires BuildZone(rcv, mqtt, hass, cat, z).Success?
    requires UniqueIds(cat)
    requires (kind, t.id) in BlockRefs() && t in Templates(cat, kind)
    ensures var p := BuildZone(rcv, mqtt, hass, cat, z).value.payload;
      var entry := Get(p.cmps, p.dev.ids + "_" + t.id);
      && entry.Some?
      && Get(entry.value, "default_entity_id") == Some(Str(RefText(kind, p.dev.ids, t.id)))
  {
    ZoneEntityOfTemplate(rcv, mqtt, hass, cat, z, kind, t);
  }

  /** When no template of the catalog has a reference's suffix as its id, the
      reference dangles: the zone's payload has no entity under it. This holds
      for any catalog, repeated ids included. */
  lemma BlockReferenceDangles(rcv: ReceiverConfig.ReceiverConfig, mqtt: MqttConfig, hass: HomeAssistantConfig,
                              cat: EntitiesConfig, z: ReceiverConfig.ZoneConfig, kind: Kind, suffix: string)
    requires IsDecimal(z.index)
    requires BuildZone(rcv, mqtt, hass, cat, z).Success?
    requires (kind, suffix) in BlockRefs() && suffix !in AllIds(cat)
    ensures var p := BuildZone(rcv, mqtt, hass, cat, z).value.payload;
      Get(p.cmps, p.dev.ids + "_" + suffix) == None
  {
    ZoneEntityAbsent(rcv, mqtt, hass, cat, z, suffix);
  }
}
