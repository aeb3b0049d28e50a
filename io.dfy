/** The outside world of the publisher as one object: the MQTT client it
    publishes through and the files it reads and writes. Every call is
    recorded, in order, in `trace`. */
module Io {
  import opened Wrappers
  import opened Discovery
  import opened ZonePayload

  /** The file `publish` reads the entity-template catalog from. */
  const CatalogFile := "hass-mqtt-config.json"

  datatype Effect =
    | FileWritten(path: string, text: string)
    | FileAppended(path: string, text: string)
    | FileRead(path: string)
    | Published(topic: string, payload: Payload)
    | Disconnected

  class Host {
    var trace: seq<Effect>
    /** What reading and parsing the catalog file yields; `None` when that
        throws. */
    const catalog: Option<EntitiesConfig>

    constructor(catalog: Option<EntitiesConfig>)
      ensures trace == [] && this.catalog == catalog
    {
      trace := [];
      this.catalog := catalog;
    }

    /** `fs.writeFile(path, text)`. */
    method WriteFile(path: string, text: string)
      modifies this
      ensures trace == old(trace) + [FileWritten(path, text)]
    {
      trace := trace + [FileWritten(path, text)];
    }

    /** `fs.appendFile(path, text)`. */
    method AppendFile(path: string, text: string)
      modifies this
      ensures trace == old(trace) + [FileAppended(path, text)]
    {
      trace := trace + [FileAppended(path, text)];
    }

    /** `JSON.parse(await fs.readFile(path))` for the catalog file. */
    method ReadCatalog() returns (r: Option<EntitiesConfig>)
      modifies this
      ensures r == catalog
      ensures trace == old(trace) + [FileRead(CatalogFile)]
    {
      trace := trace + [FileRead(CatalogFile)];
      r := catalog;
    }

    /** `client.publishAsync(topic, JSON.stringify(payload))`. */
    method PublishAsync(topic: string, payload: Payload)
      modifies this
      ensures trace == old(trace) + [Published(topic, payload)]
    {
      trace := trace + [Published(topic, payload)];
    }

    /** `client.endAsync()`. */
    method EndAsync()
      modifies this
      ensures trace == old(trace) + [Disconnected]
    {
      trace := trace + [Disconnected];
    }
  }

  /** The text of file `path` after the effects of `t`, counted from the last
      write to it; `None` when `t` never writes it. */
  function FileText(t: seq<Effect>, path: string): Option<string>
    decreases |t|
  {
    if t == [] then None
    else
      var prev := FileText(t[..|t| - 1], path);
      match t[|t| - 1]
      case FileWritten(p, text) => if p == path then Some(text) else prev
      case FileAppended(p, text) => if p == path && prev.Some? then Some(prev.value + text) else prev
      case _ => prev
  }

  /** Everything `t` appends to `path`, in order. */
  function Appended(t: seq<Effect>, path: string): string
    decreases |t|
  {
    if t == [] then ""
    else
      var rest := Appended(t[..|t| - 1], path);
      match t[|t| - 1]
      case FileAppended(p, text) => if p == path then rest + text else rest
      case _ => rest
  }

  /** `t` never writes (truncates) `path`. */
  predicate NoWrite(t: seq<Effect>, path: string) {
    forall i :: 0 <= i < |t| ==> !(t[i].FileWritten? && t[i].path == path)
  }

  lemma {:induction false} AppendedConcat(a: seq<Effect>, b: seq<Effect>, path: string)
    ensures Appended(a + b, path) == Appended(a, path) + Appended(b, path)
    decreases |b|
  {
    if b == [] {
      assert a + b == a;
    } else {
      var n := |b| - 1;
      assert (a + b)[..|a + b| - 1] == a + b[..n];
      assert (a + b)[|a + b| - 1] == b[n];
      AppendedConcat(a, b[..n], path);
    }
  }

  /** A file written once and then only appended to holds the written text
      followed by every appended text, in order. */
  lemma {:induction false} FileTextAfterWrite(a: seq<Effect>, text: string, b: seq<Effect>, path: string)
    requires NoWrite(b, path)
    ensures FileText(a + [FileWritten(path, text)] + b, path) == Some(text + Appended(b, path))
    decreases |b|
  {
    var w := a + [FileWritten(path, text)];
    if b == [] {
      assert w + b == w;
      assert w[..|w| - 1] == a && w[|w| - 1] == FileWritten(path, text);
      assert FileText(w, path) == Some(text);
      assert Appended(b, path) == "";
      assert text + "" == text;
    } else {
      var n := |b| - 1;
      assert (w + b)[..|w + b| - 1] == w + b[..n];
      assert (w + b)[|w + b| - 1] == b[n];
      assert !(b[n].FileWritten? && b[n].path == path);
      assert NoWrite(b[..n], path) by {
        forall i | 0 <= i < n
          ensures !(b[..n][i].FileWritten? && b[..n][i].path == path)
        {
          assert b[..n][i] == b[i];
        }
      }
      FileTextAfterWrite(a, text, b[..n], path);
      if b[n].FileAppended? && b[n].path == path {
        assert text + Appended(b, path) == text + Appended(b[..n], path) + b[n].text;
      }
    }
  }

  /** The number of publishes in `t`. */
  function PublishCount(t: seq<Effect>): nat
    decreases |t|
  {
    if t == [] then 0 else PublishCount(t[..|t| - 1]) + (if t[|t| - 1].Published? then 1 else 0)
  }

  /** The number of appends to `path` in `t`. */
  function AppendCount(t: seq<Effect>, path: string): nat
    decreases |t|
  {
    if t == [] then 0
    else AppendCount(t[..|t| - 1], path) + (if t[|t| - 1].FileAppended? && t[|t| - 1].path == path then 1 else 0)
  }

  /** The number of catalog reads in `t`. */
  function ReadCount(t: seq<Effect>): nat
    decreases |t|
  {
    if t == [] then 0 else ReadCount(t[..|t| - 1]) + (if t[|t| - 1].FileRead? then 1 else 0)
  }

  /** The topics of the publishes in `t`, in order. */
  function Topics(t: seq<Effect>): seq<string>
    decreases |t|
  {
    if t == [] then [] else Topics(t[..|t| - 1]) + (if t[|t| - 1].Published? then [t[|t| - 1].topic] else [])
  }

  /** What one effect counts for. */
  lemma SingleEffect(x: Effect, path: string)
    ensures PublishCount([x]) == (if x.Published? then 1 else 0)
    ensures AppendCount([x], path) == (if x.FileAppended? && x.path == path then 1 else 0)
    ensures ReadCount([x]) == (if x.FileRead? then 1 else 0)
    ensures Topics([x]) == (if x.Published? then [x.topic] else [])
    ensures Appended([x], path) == (if x.FileAppended? && x.path == path then x.text else "")
  {
    assert [x][..0] == [] && [x][0] == x;
  }

  lemma {:induction false} CountsConcat(a: seq<Effect>, b: seq<Effect>, path: string)
    ensures PublishCount(a + b) == PublishCount(a) + PublishCount(b)
    ensures Topics(a + b) == Topics(a) + Topics(b)
    ensures AppendCount(a + b, path) == AppendCount(a, path) + AppendCount(b, path)
    ensures ReadCount(a + b) == ReadCount(a) + ReadCount(b)
    decreases |b|
  {
    if b == [] {
      assert a + b == a;
    } else {
      var n := |b| - 1;
      assert (a + b)[..|a + b| - 1] == a + b[..n];
      assert (a + b)[|a + b| - 1] == b[n];
      CountsConcat(a, b[..n], path);
      var x := if b[n].Published? then [b[n].topic] else [];
      assert Topics(a + b) == Topics(a) + Topics(b[..n]) + x;
    }
  }
}
