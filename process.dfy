/** Running a container's command: the single-run guard, the running flag and
    the order in which the process's failures are reported. The OS process and
    the two copy goroutines are reduced to the results they produce. */
module Process {
  import opened Types

  /** What the outside world does during one run: the error (if any) from
      starting the process, from cmd.Wait, and from the goroutine that copies
      the process's output to the caller. */
  datatype ProcessOutcome = ProcessOutcome(
    spawnErr: Option<string>,
    waitErr: Option<string>,
    copyOutErr: Option<string>)

  /** Where a run ended. */
  datatype RunReport =
    | Completed
    | SpawnFailed(err: string)
    | ExitFailed(err: string)
    | StdinFailed(err: string)
    | CopyFailed(err: string)
  {
    /** The error Run returns for this report. */
    function ToStatus(): (s: Status)
      ensures s == Ok <==> Completed?
      ensures !Completed? ==> s == Err(err)
    {
      if Completed? then Ok else Err(err)
    }
  }

  /** The goroutine that would relay the caller's input: it closes both
      streams and always returns nil (the copy itself is commented out). */
  function DiscardStdin(): (err: Option<string>)
    ensures err.None?
  {
    None
  }

  /** The fixed order in which Run inspects its results: the spawn error, then
      the exit status, then the stdin task, then the output copy. */
  function Report(o: ProcessOutcome): (r: RunReport)
    ensures r.SpawnFailed? <==> o.spawnErr.Some?
    ensures r.ExitFailed? <==> o.spawnErr.None? && o.waitErr.Some?
    ensures r.CopyFailed? <==> o.spawnErr.None? && o.waitErr.None? && o.copyOutErr.Some?
    ensures r.Completed? <==> o.spawnErr.None? && o.waitErr.None? && o.copyOutErr.None?
    ensures !r.StdinFailed?
    ensures r.SpawnFailed? ==> r.err == o.spawnErr.value
    ensures r.ExitFailed? ==> r.err == o.waitErr.value
    ensures r.CopyFailed? ==> r.err == o.copyOutErr.value
  {
    if o.spawnErr.Some? then SpawnFailed(o.spawnErr.value)
    else if o.waitErr.Some? then ExitFailed(o.waitErr.value)
    else
      match DiscardStdin()
      case Some(e) => StdinFailed(e)
      case None => if o.copyOutErr.Some? then CopyFailed(o.copyOutErr.value) else Completed
  }

  /** A copy error surfaces only after a clean exit, and then it is the error returned. */
  lemma CopyErrorOnlyAfterCleanExit(o: ProcessOutcome)
    ensures Report(o).CopyFailed? ==> o.spawnErr.None? && o.waitErr.None?
    ensures o.spawnErr.None? && o.waitErr.None? && o.copyOutErr.Some? ==>
            Report(o).ToStatus() == Err(o.copyOutErr.value)
  {
  }

  /** The container struct as a local variable: Run updates its Running field
      in place. */
  class Container {
    const id: string
    const cmd: string
    const args: seq<string>
    var layers: seq<Layer>
    const filesChanged: nat
    const bytesChanged: nat
    var running: bool
    /** How many times this object has started its process. */
    ghost var spawns: nat

    constructor (id: string, cmd: string, args: seq<string>, filesChanged: nat, bytesChanged: nat)
      ensures this.id == id && this.cmd == cmd && this.args == args
      ensures this.filesChanged == filesChanged && this.bytesChanged == bytesChanged
      ensures layers == [] && !running && spawns == 0
    {
      this.id := id;
      this.cmd := cmd;
      this.args := args;
      this.filesChanged := filesChanged;
      this.bytesChanged := bytesChanged;
      layers := [];
      running := false;
      spawns := 0;
    }

    /** The value copied into the registry map. */
    function Entry(): (e: ContainerEntry)
      reads this
      ensures e.id == id && e.cmd == cmd && e.args == args && e.layers == layers
      ensures e.filesChanged == filesChanged && e.bytesChanged == bytesChanged && e.running == running
    {
      ContainerEntry(id, cmd, args, layers, filesChanged, bytesChanged, running)
    }

    /** Appends the given layers one at a time, in order. */
    method AppendLayers(more: seq<Layer>)
      modifies this`layers
      ensures layers == old(layers) + more
    {
      var j := 0;
      while j < |more|
        invariant 0 <= j <= |more|
        invariant layers == old(layers) + more[..j]
      {
        assert more[..j + 1] == more[..j] + [more[j]];
        layers := layers + [more[j]];
        j := j + 1;
      }
      assert more[..j] == more;
    }

    /** Runs the command once. A container that is already running is refused
        without starting anything; otherwise the flag is raised, the process is
        started, and the flag is lowered again on every way out. */
    method Run(o: ProcessOutcome) returns (r: Status)
      modifies this`running, this`spawns
      ensures old(running) ==> r == Err("Already running") && running && spawns == old(spawns)
      ensures !old(running) ==> r == Report(o).ToStatus() && !running && spawns == old(spawns) + 1
    {
      if running {
        return Err("Already running");
      }
      running := true;
      spawns := spawns + 1;
      r := Report(o).ToStatus();
      // the deferred release: one unconditional step after every outcome
      running := false;
    }
  }
}
