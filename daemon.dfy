/** The daemon: the registry of layers and containers and the command
    handlers that read and extend it. */
module Daemon {
  import opened Types
  import opened Flags
  import opened Text
  import opened Dispatch
  import opened LayerResolution
  import opened Process

  /** The size addLayer records: a requested size of 0 is replaced by a random
      draw below 142 MiB, any other size is kept. */
  function LayerSize(requested: nat, draw: LayerSizeDraw): (size: nat)
    ensures requested != 0 ==> size == requested
    ensures requested == 0 ==> size < 142 * 1024 * 1024
  {
    if requested == 0 then draw else requested
  }

  /** The name filter of `layers`: the empty filter matches every layer. */
  predicate Matches(layer: Layer, filter: string)
  {
    filter == "" || layer.name == filter
  }

  /** The ids `layers [NAME]` lists. */
  function ShownLayers(layers: map<string, Layer>, filter: string): (ids: set<string>)
    ensures ids <= layers.Keys
    ensures filter == "" ==> ids == layers.Keys
    ensures filter != "" ==> forall id :: id in ids <==> id in layers && layers[id].name == filter
  {
    set id | id in layers && Matches(layers[id], filter)
  }

  /** The NAME argument of `layers`, or the empty filter. */
  function NameFilter(positional: seq<string>): string
  {
    if |positional| == 1 then positional[0] else ""
  }

  /** The width of the CMD column of `list`: over 50 becomes 50, under 5 becomes 8. */
  function ClampWidth(longest: int): (width: int)
    ensures 5 <= width <= 50
    ensures width == longest <==> 5 <= longest <= 50
    ensures longest > 50 ==> width == 50
    ensures longest < 5 ==> width == 8
  {
    if longest > 50 then 50 else if longest < 5 then 8 else longest
  }

  /** `m` is the length in bytes of the longest command line in the registry
      (0 when empty). */
  ghost predicate IsLongestCmd(containers: map<string, ContainerEntry>, m: nat)
  {
    && (forall id :: id in containers ==> ByteLength(containers[id].CmdString()) <= m)
    && (m == 0 || exists id :: id in containers && ByteLength(containers[id].CmdString()) == m)
  }

  /** The width counts bytes, as Go's len does: a lone container whose command
      is three e-acutes (three characters, six bytes) gets a column of 6, not
      the 8 that a three-byte command would get. */
  lemma ListWidthCountsBytes(c: ContainerEntry)
    requires c.cmd == "\U{00E9}\U{00E9}\U{00E9}" && c.args == []
    ensures IsLongestCmd(map[c.id := c], 6)
    ensures forall m: nat :: IsLongestCmd(map[c.id := c], m) ==> ClampWidth(m) == 6
  {
    var e := '\U{00E9}';
    assert Utf8Width(e) == 2;
    assert ByteLength([e]) == 2 by { assert [e][1..] == []; }
    assert ByteLength([e, e]) == 4 by { assert [e, e][1..] == [e]; }
    assert ByteLength([e, e, e]) == 6 by { assert [e, e, e][1..] == [e, e]; }
    assert c.CmdString() == [e, e, e];
    var m := map[c.id := c];
    assert m.Keys == {c.id} && m[c.id] == c;
  }

  /** What `help [COMMAND]` returns. */
  function HelpStatus(args: seq<string>): (r: Status)
    ensures |args| == 0 ==> r == Ok
    ensures |args| > 0 && args[0] == "" ==> r.Panic?
    ensures |args| > 0 && args[0] != "" ==> (r == Ok <==> Lower(args[0]) in Words())
    ensures |args| > 0 && args[0] != "" && r != Ok ==> r == Err("No such command: " + args[0])
  {
    if |args| == 0 then Ok
    else if args[0] == "" then Panic("runtime error: slice bounds out of range [:1] with length 0")
    else
      GetMethodUnknown(args[0]);
      match GetMethod(args[0])
      case None => Err("No such command: " + args[0])
      case Some(_) => Ok
  }

  /** The layer source that `help COMMAND` ends up registering: `help get` and
      `help put` run the download or upload handler with the argument "--help". */
  function HelpLayerSource(args: seq<string>): (source: Option<string>)
    ensures source.Some? <==> |args| > 0 && Lower(args[0]) in {"get", "put"}
    ensures source == Some("download") <==> |args| > 0 && Lower(args[0]) == "get"
    ensures source == Some("upload") <==> |args| > 0 && Lower(args[0]) == "put"
  {
    if |args| == 0 || args[0] == "" then None
    else
      GetMethodFinds(args[0], Get);
      GetMethodFinds(args[0], Put);
      match GetMethod(args[0])
      case Some(Get) => Some("download")
      case Some(Put) => Some("upload")
      case _ => None
  }

  class Docker {
    var layers: map<string, Layer>
    var containers: map<string, ContainerEntry>

    ghost predicate Valid()
      reads this
    {
      WellFormed(layers, containers)
    }

    /** The id oracle's promise: an id that is not yet a key of either map. */
    predicate Fresh(id: string)
      reads this
    {
      id !in layers && id !in containers
    }

    constructor New()
      ensures Valid()
      ensures layers == map[] && containers == map[]
    {
      layers := map[];
      containers := map[];
    }

    /** Registers a new layer under a fresh id. */
    method AddLayer(name: string, source: string, size: nat, e: Entropy) returns (layer: Layer)
      requires Valid() && Fresh(e.id)
      modifies this`layers
      ensures Valid()
      ensures layer == Layer(e.id, name, LayerSize(size, e.layerSize), source)
      ensures layer.id !in old(layers)
      ensures layers == old(layers)[layer.id := layer]
    {
      var s := size;
      if s == 0 {
        s := e.layerSize;
      }
      layer := Layer(e.id, name, s, source);
      ghost var before := layers;
      layers := layers[layer.id := layer];
      forall id, l | id in containers && l in containers[id].layers
        ensures Registered(layers, l)
      {
        assert Registered(before, l);
      }
    }

    /** `get SOURCE`: registers a downloaded layer named SOURCE. */
    method CmdGet(args: seq<string>, e: Entropy) returns (r: Status)
      requires Valid() && Fresh(e.id)
      modifies this`layers
      ensures Valid()
      ensures |args| == 0 ==> r == Err("Not enough arguments") && layers == old(layers)
      ensures |args| > 0 ==>
                r == Ok && layers == old(layers)[e.id := Layer(e.id, args[0], e.layerSize, "download")]
    {
      if |args| < 1 {
        return Err("Not enough arguments");
      }
      var layer := AddLayer(args[0], "download", 0, e);
      r := Ok;
    }

    /** `put SOURCE`: registers an uploaded layer named SOURCE. */
    method CmdPut(args: seq<string>, e: Entropy) returns (r: Status)
      requires Valid() && Fresh(e.id)
      modifies this`layers
      ensures Valid()
      ensures |args| == 0 ==> r == Err("Not enough arguments") && layers == old(layers)
      ensures |args| > 0 ==>
                r == Ok && layers == old(layers)[e.id := Layer(e.id, args[0], e.layerSize, "upload")]
    {
      if |args| < 1 {
        return Err("Not enough arguments");
      }
      var layer := AddLayer(args[0], "upload", 0, e);
      r := Ok;
    }

    /** `export CONTAINER LAYER`: registers a layer named LAYER whose size is the
        container's changed-bytes count. */
    method CmdExport(flags: FlagParse<ExportFlags>, e: Entropy) returns (r: Status)
      requires Valid() && Fresh(e.id)
      modifies this`layers
      ensures Valid()
      ensures flags.ParseFailed? ==> r == Ok && layers == old(layers)
      ensures flags.Parsed? ==>
                var pos := flags.flags.positional;
                if |pos| < 2 then r == Err("Not enough arguments") && layers == old(layers)
                else if pos[0] !in containers then r == Err("No such container") && layers == old(layers)
                else
                  var size := LayerSize(containers[pos[0]].bytesChanged, e.layerSize);
                  r == Ok && layers == old(layers)[e.id := Layer(e.id, pos[1], size, "export:" + pos[0])]
    {
      if flags.ParseFailed? {
        return Ok;
      }
      var pos := flags.flags.positional;
      if |pos| < 2 {
        return Err("Not enough arguments");
      }
      if pos[0] !in containers {
        return Err("No such container");
      }
      var container := containers[pos[0]];
      var layer := AddLayer(pos[1], "export:" + container.id, container.bytesChanged, e);
      r := Ok;
    }

    /** `run -l REF [-l REF...] COMMAND [ARG...]`: checks the arguments, builds
        the container's layer list from the references in order, registers a
        copy of the container, then runs the local one. */
    method CmdRun(flags: FlagParse<RunFlags>, e: Entropy, o: ProcessOutcome) returns (r: Status)
      requires Valid() && Fresh(e.id)
      modifies this`containers
      ensures Valid()
      ensures flags.ParseFailed? ==> r == Ok && containers == old(containers)
      ensures flags.Parsed? ==>
                var refs, pos := flags.flags.layerRefs, flags.flags.positional;
                if |refs| == 0 then
                  r == Err("Please specify at least one layer") && containers == old(containers)
                else if |pos| == 0 then
                  r == Err("No command specified") && containers == old(containers)
                else
                  match Resolve(refs, layers, old(containers))
                  case Unresolved(name) =>
                    r == Err("No such layer or container: " + name) && containers == old(containers)
                  case Resolved(ls) =>
                    && r == Report(o).ToStatus()
                    && containers == old(containers)[e.id :=
                         ContainerEntry(e.id, pos[0], pos[1..], ls, e.filesChanged, e.bytesChanged, false)]
    {
      if flags.ParseFailed? {
        return Ok;
      }
      var refs, pos := flags.flags.layerRefs, flags.flags.positional;
      if |refs| < 1 {
        return Err("Please specify at least one layer");
      }
      if |pos| < 1 {
        return Err("No command specified");
      }
      var cmd := pos[0];
      var cmdArgs: seq<string> := [];
      if |pos| > 1 {
        cmdArgs := pos[1..];
      }
      var container: Container := new Container(e.id, cmd, cmdArgs, e.filesChanged, e.bytesChanged);
      var i := 0;
      while i < |refs|
        invariant 0 <= i <= |refs|
        invariant Resolve(refs[..i], layers, containers) == Resolved(container.layers)
        modifies container`layers
      {
        var name := refs[i];
        assert refs[..i + 1][..i] == refs[..i] && refs[..i + 1][i] == name;
        if name !in layers {
          if name in containers {
            container.AppendLayers(containers[name].layers);
          } else {
            ResolveAppend(refs[..i + 1], refs[i + 1..], layers, containers);
            assert refs[..i + 1] + refs[i + 1..] == refs;
            return Err("No such layer or container: " + name);
          }
        } else {
          container.layers := container.layers + [layers[name]];
        }
        i := i + 1;
      }
      assert refs[..i] == refs;
      ResolvedLayersRegistered(refs, layers, containers);
      RegisterKeepsWellFormed(layers, containers, container.Entry());
      containers := containers[container.id := container.Entry()];
      r := container.Run(o);
    }

    /** `clone [-r] CONTAINER_ID`: runs a new container with the source's layers,
        command and arguments. The argument list built for run,
        ["-l", id, "--", Cmd] + Args, parses to one reference (the source's
        id) and the positional arguments [Cmd] + Args. */
    method CmdClone(flags: CloneFlags, e: Entropy, o: ProcessOutcome) returns (r: Status)
      requires Valid() && Fresh(e.id)
      modifies this`containers
      ensures Valid()
      ensures !flags.reset ==>
                r == Err("Only reset mode is available for now. Please use -r") && containers == old(containers)
      ensures flags.reset && |flags.positional| != 1 ==> r == Ok && containers == old(containers)
      ensures flags.reset && |flags.positional| == 1 ==>
                var id := flags.positional[0];
                if id !in old(containers) then
                  r == Err("No such container: " + id) && containers == old(containers)
                else
                  var src := old(containers)[id];
                  && r == Report(o).ToStatus()
                  && containers == old(containers)[e.id :=
                       ContainerEntry(e.id, src.cmd, src.args, src.layers, e.filesChanged, e.bytesChanged, false)]
    {
      if !flags.reset {
        return Err("Only reset mode is available for now. Please use -r");
      }
      if |flags.positional| != 1 {
        return Ok;
      }
      var id := flags.positional[0];
      if id !in containers {
        return Err("No such container: " + id);
      }
      var src := containers[id];
      ResolveContainerId(src.id, layers, containers);
      assert ([src.cmd] + src.args)[1..] == src.args;
      r := CmdRun(Parsed(RunFlags([src.id], [src.cmd] + src.args)), e, o);
    }

    /** `layers [-q] [NAME]`: the ids of the layers listed (as bare ids with -q,
        as table rows otherwise); with more than one NAME only the usage is shown. */
    method CmdLayers(flags: LayersFlags) returns (r: Status, shown: set<string>)
      ensures r == Ok
      ensures |flags.positional| > 1 ==> shown == {}
      ensures |flags.positional| <= 1 ==> shown == ShownLayers(layers, NameFilter(flags.positional))
    {
      if |flags.positional| > 1 {
        return Ok, {};
      }
      var filter := NameFilter(flags.positional);
      shown := {};
      var todo := layers.Keys;
      while todo != {}
        invariant todo <= layers.Keys
        invariant shown == set id | id in layers.Keys - todo && Matches(layers[id], filter)
        decreases todo
      {
        var id :| id in todo;
        if Matches(layers[id], filter) {
          shown := shown + {id};
        }
        todo := todo - {id};
      }
      r := Ok;
    }

    /** `list`: the CMD column width, from the longest command line (in bytes)
        clamped. */
    method CmdList() returns (r: Status, width: int)
      ensures r == Ok
      ensures exists longest: nat :: IsLongestCmd(containers, longest) && width == ClampWidth(longest)
    {
      var longest: nat := 0;
      var todo := containers.Keys;
      while todo != {}
        invariant todo <= containers.Keys
        invariant forall id :: id in containers.Keys - todo ==> ByteLength(containers[id].CmdString()) <= longest
        invariant longest == 0 ||
                  exists id :: id in containers.Keys - todo && ByteLength(containers[id].CmdString()) == longest
        decreases todo
      {
        var id :| id in todo;
        var l := ByteLength(containers[id].CmdString());
        if l > longest {
          longest := l;
        }
        todo := todo - {id};
      }
      width := ClampWidth(longest);
      r := Ok;
    }

    /** A handler called by `help` with the single argument "--help"; its result
        is discarded. */
    method HelpInvoke(c: Command, e: Entropy, o: ProcessOutcome)
      requires Valid() && Fresh(e.id)
      modifies this
      ensures Valid()
      ensures containers == old(containers)
      ensures c == Get ==> layers == old(layers)[e.id := Layer(e.id, "--help", e.layerSize, "download")]
      ensures c == Put ==> layers == old(layers)[e.id := Layer(e.id, "--help", e.layerSize, "upload")]
      ensures c != Get && c != Put ==> layers == old(layers)
    {
      var ignored: Status;
      match c
      case Help =>
        // "--help" names no command, so the nested help returns an error
        ignored := HelpStatus(["--help"]);
      case Layers =>
        // flags.Parse fails on --help; the error is ignored and every layer is listed
        var shown;
        ignored, shown := CmdLayers(LayersFlags(false, []));
      case Get =>
        ignored := CmdGet(["--help"], e);
      case Put =>
        ignored := CmdPut(["--help"], e);
      case Export =>
        ignored := CmdExport(ParseFailed, e);
      case Run =>
        ignored := CmdRun(ParseFailed, e, o);
      case Clone =>
        // flags.Parse fails on --help; the error is ignored, -r keeps its default
        ignored := CmdClone(CloneFlags(true, []), e, o);
      case List =>
        var width;
        ignored, width := CmdList();
    }

    /** `help [COMMAND]`, as written: with a known command it calls that
        command's handler with "--help", so `help get` and `help put` register
        a layer named "--help". */
    method CmdHelp(args: seq<string>, e: Entropy, o: ProcessOutcome) returns (r: Status)
      requires Valid() && Fresh(e.id)
      modifies this
      ensures Valid()
      ensures r == HelpStatus(args)
      ensures containers == old(containers)
      ensures match HelpLayerSource(args)
              case Some(source) => layers == old(layers)[e.id := Layer(e.id, "--help", e.layerSize, source)]
              case None => layers == old(layers)
    {
      if |args| == 0 {
        return Ok;
      }
      if args[0] == "" {
        return Panic("runtime error: slice bounds out of range [:1] with length 0");
      }
      match GetMethod(args[0])
      case None =>
        return Err("No such command: " + args[0]);
      case Some(c) =>
        HelpInvoke(c, e, o);
      r := Ok;
    }

    /** `help [COMMAND]` as evidently intended: the same answers, and the
        registry is left alone. */
    method CmdHelpIntended(args: seq<string>) returns (r: Status)
      ensures r == HelpStatus(args)
    {
      r := HelpStatus(args);
    }
  }
}
