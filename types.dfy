/** The daemon's values: layers, registered containers, command results and
    the random draws the daemon makes. */
module Types {
  import Text

  datatype Option<+T> = None | Some(value: T)

  /** What a command handler returns: nil, a Go error with its message, or a
      runtime panic (only `help ""` reaches one). */
  datatype Status = Ok | Err(msg: string) | Panic(reason: string)

  /** A registered layer (the creation time is not modelled). */
  datatype Layer = Layer(id: string, name: string, size: nat, source: string)

  /** A container as stored in the registry map: a copy of the struct. */
  datatype ContainerEntry = ContainerEntry(
    id: string,
    cmd: string,
    args: seq<string>,
    layers: seq<Layer>,
    filesChanged: nat,
    bytesChanged: nat,
    running: bool)
  {
    /** The command line shown by `list`: Cmd and Args joined with spaces. */
    function CmdString(): (s: string)
      ensures |s| == |cmd| + Text.TotalLength(args) + |args|
      ensures s[..|cmd|] == cmd
      ensures args == [] ==> s == cmd
    {
      var parts := [cmd] + args;
      assert parts[1..] == args;
      Text.JoinLength(parts, " ");
      if args == [] then cmd
      else
        assert parts == [cmd] + parts[1..];
        Text.Join(parts, " ")
    }
  }

  /** The command line splits back into Cmd and Args when none of them holds a space. */
  lemma CmdStringSplits(c: ContainerEntry)
    requires ' ' !in c.cmd
    requires forall i :: 0 <= i < |c.args| ==> ' ' !in c.args[i]
    ensures Text.Split(c.CmdString(), ' ') == [c.cmd] + c.args
  {
    var parts := [c.cmd] + c.args;
    assert forall i :: 0 <= i < |parts| ==> ' ' !in parts[i] by {
      forall i | 0 <= i < |parts| ensures ' ' !in parts[i] {
        if i > 0 { assert parts[i] == c.args[i - 1]; }
      }
    }
    Text.SplitJoin(parts, ' ');
    if c.args == [] {
      assert Text.Join(parts, " ") == c.cmd;
    }
  }

  /** rand.Int31n(142 * 1024 * 1024): the size drawn for a layer of unknown size. */
  type LayerSizeDraw = n: nat | n < 142 * 1024 * 1024

  /** rand.Int31n(42): the placeholder count of changed files. */
  type FilesDraw = n: nat | n < 42

  /** rand.Int31n(24 * 1024 * 1024): the placeholder count of changed bytes. */
  type BytesDraw = n: nat | n < 24 * 1024 * 1024

  /** The random values one command may consume: the id randomId returns and
      the three rand.Int31n draws. */
  datatype Entropy = Entropy(
    id: string,
    layerSize: LayerSizeDraw,
    filesChanged: FilesDraw,
    bytesChanged: BytesDraw)
}
