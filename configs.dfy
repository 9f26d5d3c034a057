/**
  The part of the simulation's Config that the core reads, and the
  configuration document a save stores.

  Config.cs is not part of this model. The WorldLocation codes below follow
  the declaration order None, RandomBorderLocation, RandomLocation, RandomPOI,
  Mixed; a location is kept as its integer code because a C# enum holds any
  int, and the selection code must reject the codes it does not handle.
 */
module Configs {
  import opened Wrappers
  import opened Numeric
  import opened Wire

  const LocationNone: Int32 := 0
  const LocationRandomBorder: Int32 := 1
  const LocationRandom: Int32 := 2
  const LocationRandomPOI: Int32 := 3
  const LocationMixed: Int32 := 4

  datatype Config = Config(
    randomSeed: Int32,
    maxAgents: Int32,
    groupSize: Int32,
    startAgentsGrouped: bool,
    startPosition: Int32,
    respawnPosition: Int32)

  /** The configuration's fields, in document order. */
  function Fields(c: Config): seq<Int32>
  {
    [c.randomSeed, c.maxAgents, c.groupSize, if c.startAgentsGrouped then 1 else 0,
     c.startPosition, c.respawnPosition]
  }

  /**
    The configuration text a save embeds. The source writes the XML that
    XmlSerializer produces for Config; XML is not modelled, so this stand-in
    lists the fields above in order, each as a 32-bit word.
   */
  function ConfigDocument(c: Config): (doc: Bytes)
    ensures |doc| == 24
  {
    EncodeListLength(EncodeInt32, Fields(c), 4);
    EncodeList(EncodeInt32, Fields(c))
  }

  /**
    Reads a configuration document back; None where XmlSerializer.Deserialize
    throws (a malformed or incomplete document, or trailing content).
   */
  function ParseConfigDocument(doc: Bytes): Option<Config>
  {
    var (w, rest) :- DecodeList(DecodeInt32, doc, 6);
    if rest != [] || (w[3] != 0 && w[3] != 1) then None
    else Some(Config(w[0], w[1], w[2], w[3] == 1, w[4], w[5]))
  }

  lemma ConfigDocumentRoundTrip(c: Config)
    ensures ParseConfigDocument(ConfigDocument(c)) == Some(c)
  {
    Int32Inverse();
    ListRoundTrip(EncodeInt32, DecodeInt32, Fields(c), []);
    assert ConfigDocument(c) + [] == ConfigDocument(c);
  }
}
