/**
  Loading a map folder: map_info.xml read as a fold over its property
  nodes, the road image chosen from a preference list, and the success
  condition of the whole load.

  XML parsing, image decoding and XmlSerializer are foreign libraries: a
  Folder carries their results (the parsed map_info.xml document, the
  decoded road images, the deserialized prefabs) and `int.Parse` is passed
  in as a function.
 */
module MapLoad {
  import opened Wrappers
  import opened Numeric

  /** An XML element: its name, its attributes and, for a root, its children. */
  datatype XmlNode = XmlNode(name: string, attributes: map<string, string>)
  datatype XmlDocument = XmlDocument(rootName: string, children: seq<XmlNode>)

  /** MapData.MapInfo; a string field never assigned stays null (None). */
  datatype MapInfo = MapInfo(
    name: Option<string>,
    description: Option<string>,
    modes: Option<string>,
    heightMapWidth: Int32,
    heightMapHeight: Int32)

  const EmptyInfo := MapInfo(None, None, None, 0, 0)

  datatype Decoration = Decoration(
    decorationType: string,
    name: string,
    position: Vector3,
    rotation: Int32,
    yIsGroundLevel: bool)

  datatype PrefabsData = PrefabsData(decorations: seq<Decoration>)

  /** The road map Roads.LoadFromBitmap builds from a decoded image; its content is opaque here. */
  datatype Roads = Roads(bitmap: seq<Byte>)

  datatype MapData = MapData(info: Option<MapInfo>, roads: Roads, prefabs: PrefabsData)

  /**
    A map folder: the names of the files in it, map_info.xml as
    XmlDocument.LoadXml parses it (None when that throws on malformed text),
    the road map each readable image yields through Image.FromFile,
    RemoveTransparency and Roads.LoadFromBitmap (an existing file missing
    from `images` is one Image.FromFile throws on), and prefabs.xml as
    XmlSerializer reads it (None when that throws, including when the file
    is missing).
   */
  datatype Folder = Folder(
    files: set<string>,
    mapInfoXml: Option<XmlDocument>,
    images: map<string, Roads>,
    prefabs: Option<PrefabsData>)

  /** The exceptions that escape ParseInfo and so LoadFromFolder. */
  datatype Fault =
    | MalformedXml       // LoadXml throws
    | MissingAttribute   // a property without a `name` or `value` attribute
    | BadNumber          // int.Parse throws on a HeightMapSize part
    | BadImage           // Image.FromFile throws on the chosen road image

  const MapInfoFile := "map_info.xml"
  const SplatCandidates := ["splat3_half.png", "splat3_processed.png", "splat3.png"]

  // ----- String.Split -----

  /** `s.Split(sep)`: the pieces between separators, empty pieces kept. */
  function Split(s: string, sep: char): (parts: seq<string>)
    ensures |parts| >= 1
    ensures forall i :: 0 <= i < |parts| ==> sep !in parts[i]
    decreases |s|
  {
    if |s| == 0 then [""]
    else
      var parts := Split(s[1..], sep);
      if s[0] == sep then [""] + parts
      else [[s[0]] + parts[0]] + parts[1..]
  }

  /** `string.Join(sep, parts)`. */
  function Join(parts: seq<string>, sep: char): string
    requires |parts| >= 1
    decreases |parts|
  {
    if |parts| == 1 then parts[0] else parts[0] + [sep] + Join(parts[1..], sep)
  }

  /** How many times `c` occurs in `s`. */
  function Occurrences(s: string, c: char): nat
    decreases |s|
  {
    if |s| == 0 then 0 else (if s[0] == c then 1 else 0) + Occurrences(s[1..], c)
  }

  /** Joining the pieces with the separator gives back the string. */
  lemma {:induction false} SplitJoin(s: string, sep: char)
    ensures Join(Split(s, sep), sep) == s
    decreases |s|
  {
    if |s| > 0 {
      SplitJoin(s[1..], sep);
      var parts := Split(s[1..], sep);
      if s[0] == sep {
        assert Split(s, sep)[1..] == parts;
        assert s == [sep] + s[1..];
      } else {
        var head := [s[0]] + parts[0];
        assert Split(s, sep) == [head] + parts[1..];
        if |parts| == 1 {
          assert s == [s[0]] + s[1..];
        } else {
          assert ([head] + parts[1..])[1..] == parts[1..];
          assert Join(parts, sep) == parts[0] + [sep] + Join(parts[1..], sep);
          assert s == [s[0]] + s[1..];
        }
      }
    }
  }

  /** There is one more piece than there are separators. */
  lemma {:induction false} SplitCount(s: string, sep: char)
    ensures |Split(s, sep)| == Occurrences(s, sep) + 1
    decreases |s|
  {
    if |s| > 0 {
      SplitCount(s[1..], sep);
    }
  }

  // ----- ParseInfo -----

  /**
    One pass of ParseInfo's loop body over a child node: the new record, or
    Ok(None) when a HeightMapSize value does not split into two parts (the
    method returns null), or the exception that escapes.
   */
  function ApplyNode(info: MapInfo, node: XmlNode, parseInt: string -> Option<Int32>): Result<Option<MapInfo>, Fault>
  {
    if node.name != "property" then Ok(Some(info))
    else if "name" !in node.attributes || "value" !in node.attributes then Err(MissingAttribute)
    else
      var name, value := node.attributes["name"], node.attributes["value"];
      if name == "Name" then Ok(Some(info.(name := Some(value))))
      else if name == "Description" then Ok(Some(info.(description := Some(value))))
      else if name == "Modes" then Ok(Some(info.(modes := Some(value))))
      else if name == "HeightMapSize" then
        var split := Split(value, ',');
        if |split| != 2 then Ok(None)
        else if parseInt(split[0]).None? || parseInt(split[1]).None? then Err(BadNumber)
        else Ok(Some(info.(heightMapWidth := parseInt(split[0]).value,
                           heightMapHeight := parseInt(split[1]).value)))
      else Ok(Some(info))
  }

  /** The loop over the root's children, from `info` on, stopping at the first null or exception. */
  function ApplyNodes(info: MapInfo, nodes: seq<XmlNode>, parseInt: string -> Option<Int32>): Result<Option<MapInfo>, Fault>
    decreases |nodes|
  {
    if |nodes| == 0 then Ok(Some(info))
    else
      match ApplyNode(info, nodes[0], parseInt)
      case Err(f) => Err(f)
      case Ok(None) => Ok(None)
      case Ok(Some(info')) => ApplyNodes(info', nodes[1..], parseInt)
  }

  /** ParseInfo of the folder's map_info.xml. */
  function ReadInfo(folder: Folder, parseInt: string -> Option<Int32>): Result<Option<MapInfo>, Fault>
  {
    if MapInfoFile !in folder.files then Ok(None)
    else match folder.mapInfoXml
      case None => Err(MalformedXml)
      case Some(doc) =>
        if doc.rootName != "MapInfo" then Ok(None)
        else ApplyNodes(EmptyInfo, doc.children, parseInt)
  }

  method ParseInfo(folder: Folder, parseInt: string -> Option<Int32>) returns (r: Result<Option<MapInfo>, Fault>)
    ensures r == ReadInfo(folder, parseInt)
    ensures MapInfoFile !in folder.files ==> r == Ok(None)
    ensures folder.mapInfoXml.Some? && folder.mapInfoXml.value.rootName != "MapInfo" ==> r.Ok? && r.value.None?
  {
    if MapInfoFile !in folder.files {
      return Ok(None);
    }
    if folder.mapInfoXml.None? {
      return Err(MalformedXml);
    }
    var root := folder.mapInfoXml.value;
    if root.rootName != "MapInfo" {
      return Ok(None);
    }
    var info := EmptyInfo;
    var i := 0;
    while i < |root.children|
      invariant 0 <= i <= |root.children|
      invariant ApplyNodes(EmptyInfo, root.children, parseInt) == ApplyNodes(info, root.children[i..], parseInt)
    {
      var node := root.children[i];
      assert root.children[i..][1..] == root.children[i + 1..];
      if node.name == "property" {
        if "name" !in node.attributes || "value" !in node.attributes {
          return Err(MissingAttribute);
        }
        var name := node.attributes["name"];
        var value := node.attributes["value"];
        if name == "Name" {
          info := info.(name := Some(value));
        } else if name == "Description" {
          info := info.(description := Some(value));
        } else if name == "Modes" {
          info := info.(modes := Some(value));
        } else if name == "HeightMapSize" {
          var split := Split(value, ',');
          if |split| != 2 {
            return Ok(None);
          }
          var width := parseInt(split[0]);
          if width.None? {
            return Err(BadNumber);
          }
          info := info.(heightMapWidth := width.value);
          var height := parseInt(split[1]);
          if height.None? {
            return Err(BadNumber);
          }
          info := info.(heightMapHeight := height.value);
        }
      }
      i := i + 1;
    }
    return Ok(Some(info));
  }

  /** A node that can change the record or stop the parse. */
  predicate Relevant(node: XmlNode)
  {
    node.name == "property" &&
    ("name" !in node.attributes || "value" !in node.attributes ||
     node.attributes["name"] in ["Name", "Description", "Modes", "HeightMapSize"])
  }

  function Relevants(nodes: seq<XmlNode>): (r: seq<XmlNode>)
    ensures forall i :: 0 <= i < |r| ==> Relevant(r[i])
    decreases |nodes|
  {
    if |nodes| == 0 then []
    else if Relevant(nodes[0]) then [nodes[0]] + Relevants(nodes[1..])
    else Relevants(nodes[1..])
  }

  /** Nodes that are not properties, or properties with other names, are ignored. */
  lemma {:induction false} IrrelevantNodesIgnored(info: MapInfo, nodes: seq<XmlNode>, parseInt: string -> Option<Int32>)
    ensures ApplyNodes(info, nodes, parseInt) == ApplyNodes(info, Relevants(nodes), parseInt)
    decreases |nodes|
  {
    if |nodes| > 0 {
      if Relevant(nodes[0]) {
        var rs := [nodes[0]] + Relevants(nodes[1..]);
        assert rs[0] == nodes[0] && rs[1..] == Relevants(nodes[1..]);
        match ApplyNode(info, nodes[0], parseInt)
        case Err(_) =>
        case Ok(None) =>
        case Ok(Some(info')) =>
          IrrelevantNodesIgnored(info', nodes[1..], parseInt);
      } else {
        assert ApplyNode(info, nodes[0], parseInt) == Ok(Some(info));
        IrrelevantNodesIgnored(info, nodes[1..], parseInt);
      }
    }
  }

  /** The value of the last `key` property among `nodes`, or `prior` when there is none. */
  function LastValue(nodes: seq<XmlNode>, key: string, prior: Option<string>): Option<string>
    decreases |nodes|
  {
    if |nodes| == 0 then prior
    else
      var node := nodes[0];
      var here :=
        if node.name == "property" && "name" in node.attributes && "value" in node.attributes
           && node.attributes["name"] == key
        then Some(node.attributes["value"]) else prior;
      LastValue(nodes[1..], key, here)
  }

  /** A completed parse holds, for each text field, the value of the last property naming it. */
  lemma {:induction false} LastPropertyWins(info: MapInfo, nodes: seq<XmlNode>, parseInt: string -> Option<Int32>)
    requires ApplyNodes(info, nodes, parseInt).Ok? && ApplyNodes(info, nodes, parseInt).value.Some?
    ensures ApplyNodes(info, nodes, parseInt).value.value.name == LastValue(nodes, "Name", info.name)
    ensures ApplyNodes(info, nodes, parseInt).value.value.description == LastValue(nodes, "Description", info.description)
    ensures ApplyNodes(info, nodes, parseInt).value.value.modes == LastValue(nodes, "Modes", info.modes)
    decreases |nodes|
  {
    if |nodes| > 0 {
      var info' := ApplyNode(info, nodes[0], parseInt).value.value;
      LastPropertyWins(info', nodes[1..], parseInt);
    }
  }

  /** A node naming HeightMapSize, with its value. */
  predicate HeightMapSizeNode(node: XmlNode)
  {
    node.name == "property" && "name" in node.attributes && "value" in node.attributes
    && node.attributes["name"] == "HeightMapSize"
  }

  /**
    A parse that throws nothing gives a record exactly when every
    HeightMapSize value splits on ',' into two parts.
   */
  lemma {:induction false} HeightMapSizeDecides(info: MapInfo, nodes: seq<XmlNode>, parseInt: string -> Option<Int32>)
    requires ApplyNodes(info, nodes, parseInt).Ok?
    ensures ApplyNodes(info, nodes, parseInt).value.Some? <==>
      forall i :: 0 <= i < |nodes| && HeightMapSizeNode(nodes[i]) ==> |Split(nodes[i].attributes["value"], ',')| == 2
    decreases |nodes|
  {
    if |nodes| > 0 {
      match ApplyNode(info, nodes[0], parseInt)
      case Ok(None) =>
        assert HeightMapSizeNode(nodes[0]);
      case Ok(Some(info')) =>
        HeightMapSizeDecides(info', nodes[1..], parseInt);
        assert HeightMapSizeNode(nodes[0]) ==> |Split(nodes[0].attributes["value"], ',')| == 2;
        forall i | 1 <= i < |nodes|
          ensures nodes[i] == nodes[1..][i - 1]
        {
        }
    }
  }

  // ----- LoadRoadSplat -----

  /** The first of `candidates` that exists, if any. */
  function FirstExisting(candidates: seq<string>, files: set<string>): Option<string>
    decreases |candidates|
  {
    if |candidates| == 0 then None
    else if candidates[0] in files then Some(candidates[0])
    else FirstExisting(candidates[1..], files)
  }

  /** FirstExisting picks an existing candidate preceded only by missing ones, or finds none. */
  lemma {:induction false} FirstExistingIsFirst(candidates: seq<string>, files: set<string>)
    ensures FirstExisting(candidates, files).None? <==> forall i :: 0 <= i < |candidates| ==> candidates[i] !in files
    ensures FirstExisting(candidates, files).Some? ==>
      exists k :: 0 <= k < |candidates| && candidates[k] == FirstExisting(candidates, files).value
        && candidates[k] in files && forall i :: 0 <= i < k ==> candidates[i] !in files
    decreases |candidates|
  {
    if |candidates| > 0 && candidates[0] !in files {
      FirstExistingIsFirst(candidates[1..], files);
      if FirstExisting(candidates, files).Some? {
        var k :| 0 <= k < |candidates[1..]| && candidates[1..][k] == FirstExisting(candidates, files).value
          && candidates[1..][k] in files && forall i :: 0 <= i < k ==> candidates[1..][i] !in files;
        assert candidates[k + 1] == candidates[1..][k];
        forall i | 0 <= i < k + 1
          ensures candidates[i] !in files
        {
          if i > 0 {
            assert candidates[i] == candidates[1..][i - 1];
          }
        }
      } else {
        forall i | 0 <= i < |candidates|
          ensures candidates[i] !in files
        {
          if i > 0 {
            assert candidates[i] == candidates[1..][i - 1];
          }
        }
      }
    }
  }

  /**
    LoadRoadSplat: the first existing of the three candidates is decoded;
    none existing gives null, and an unreadable one throws.
   */
  method LoadRoadSplat(folder: Folder) returns (roads: Result<Option<Roads>, Fault>)
    ensures roads == match FirstExisting(SplatCandidates, folder.files)
                     case None => Ok(None)
                     case Some(file) => if file in folder.images then Ok(Some(folder.images[file])) else Err(BadImage)
  {
    var splatPath := "splat3_half.png";
    if splatPath !in folder.files {
      splatPath := "splat3_processed.png";
    }
    if splatPath !in folder.files {
      splatPath := "splat3.png";
    }
    if splatPath !in folder.files {
      return Ok(None);
    }
    if splatPath !in folder.images {
      return Err(BadImage);
    }
    return Ok(Some(folder.images[splatPath]));
  }

  // ----- LoadFromFolder -----

  /**
    LoadFromFolder: the map info is parsed first (its exceptions escape);
    then the road image is loaded (an unreadable one throws); then a
    missing road image or unreadable prefabs give null. A null map info
    does not fail the load.
   */
  method LoadFromFolder(folder: Folder, parseInt: string -> Option<Int32>) returns (r: Result<Option<MapData>, Fault>)
    ensures var splat := FirstExisting(SplatCandidates, folder.files);
      r.Err? <==> ReadInfo(folder, parseInt).Err? || (splat.Some? && splat.value !in folder.images)
    ensures ReadInfo(folder, parseInt).Err? ==> r == Err(ReadInfo(folder, parseInt).error)
    ensures ReadInfo(folder, parseInt).Ok? && r.Err? ==> r.error == BadImage
    ensures r.Ok? ==> (r.value.Some? <==>
      FirstExisting(SplatCandidates, folder.files).Some? && folder.prefabs.Some?)
    ensures r.Ok? && r.value.Some? ==>
      r.value.value == MapData(ReadInfo(folder, parseInt).value,
                               folder.images[FirstExisting(SplatCandidates, folder.files).value],
                               folder.prefabs.value)
  {
    var mapInfo := ParseInfo(folder, parseInt);
    if mapInfo.Err? {
      return Err(mapInfo.error);
    }
    var roads := LoadRoadSplat(folder);
    if roads.Err? {
      return Err(roads.error);
    }
    if roads.value.None? {
      return Ok(None);
    }
    var prefabs := folder.prefabs;
    if prefabs.None? {
      return Ok(None);
    }
    return Ok(Some(MapData(mapInfo.value, roads.value.value, prefabs.value)));
  }
}
