/** Client sequences of commands against a fresh daemon, proved from the
    handlers' contracts alone. */
module Scenarios {
  import opened Types
  import opened Flags
  import opened Dispatch
  import opened Process
  import opened LayerResolution
  import opened Daemon

  /** `get base`, then `run -l <id of base> -- true`: the container holds the
      downloaded layer, is registered as not running, and reports how the
      process ended. */
  method GetThenRun(e1: Entropy, e2: Entropy, o: ProcessOutcome) returns (d: Docker, r: Status)
    requires e1.id != e2.id
    ensures d.layers == map[e1.id := Layer(e1.id, "base", e1.layerSize, "download")]
    ensures d.containers ==
            map[e2.id := ContainerEntry(e2.id, "true", [], [d.layers[e1.id]], e2.filesChanged, e2.bytesChanged, false)]
    ensures r == Report(o).ToStatus()
  {
    d := new Docker.New();
    var got := d.CmdGet(["base"], e1);
    ghost var base := d.layers[e1.id];
    assert Resolve([e1.id], d.layers, d.containers) == Resolved([base]) by {
      assert [e1.id][..0] == [] && [] + [base] == [base];
    }
    assert ["true"][1..] == [];
    r := d.CmdRun(Parsed(RunFlags([e1.id], ["true"])), e2, o);
    assert d.containers == map[][e2.id := ContainerEntry(e2.id, "true", [], [base], e2.filesChanged, e2.bytesChanged, false)];
  }

  /** A reference is looked up by id only: naming the layer "base" by its name
      fails and registers nothing. */
  method RunByLayerNameFails(e1: Entropy, e2: Entropy, o: ProcessOutcome) returns (d: Docker, r: Status)
    requires e1.id != e2.id && e1.id != "base"
    ensures r == Err("No such layer or container: base")
    ensures d.containers == map[]
  {
    d := new Docker.New();
    var got := d.CmdGet(["base"], e1);
    r := d.CmdRun(Parsed(RunFlags(["base"], ["true"])), e2, o);
  }

  /** `help get` as written downloads a layer named "--help". */
  method HelpGetRegistersLayer(e: Entropy, o: ProcessOutcome) returns (d: Docker, r: Status)
    ensures r == Ok
    ensures d.layers == map[e.id := Layer(e.id, "--help", e.layerSize, "download")]
  {
    GetMethodFinds("get", Get);
    d := new Docker.New();
    r := d.CmdHelp(["get"], e, o);
  }
}
