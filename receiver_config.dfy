/** The description of one audio/video receiver, as read from the receiver
    list: its name and id, its input sources and its output zones. */
module ReceiverConfig {

  /** An input the receiver can route to a zone. */
  datatype Source = Source(index: string, display: string, code: string)

  /** An output zone: `index` is its 1-based number written in decimal,
      `sources` the codes of the inputs selectable in it. */
  datatype ZoneConfig = ZoneConfig(index: string, name: string, sources: seq<string>)

  datatype ReceiverConfig = ReceiverConfig(
    name: string,
    id: string,
    ip: string,
    sources: seq<Source>,
    zones: seq<ZoneConfig>)
}
