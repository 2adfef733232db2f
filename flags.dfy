/** Command-line flags as the handlers receive them once the flag package has
    parsed them, and ArgList, the repeatable `-l` flag value. */
module Flags {
  import opened Types
  import Text

  /** The result of flags.Parse: an error (including -h/--help), or the flags. */
  datatype FlagParse<T> = ParseFailed | Parsed(flags: T)

  /** `run -l LAYER [-l LAYER...] COMMAND [ARG...]`: the -l values in order and
      the positional arguments. */
  datatype RunFlags = RunFlags(layerRefs: seq<string>, positional: seq<string>)

  /** `export [-s] CONTAINER LAYER`; -s is declared but never read. */
  datatype ExportFlags = ExportFlags(stream: bool, positional: seq<string>)

  /** `clone [-r] CONTAINER_ID`; -r defaults to true. */
  datatype CloneFlags = CloneFlags(reset: bool, positional: seq<string>)

  /** `layers [-q] [NAME]`. */
  datatype LayersFlags = LayersFlags(quiet: bool, positional: seq<string>)

  /** The value of a repeatable string flag: every occurrence is appended. */
  class ArgList {
    var items: seq<string>

    constructor ()
      ensures items == []
    {
      items := [];
    }

    /** The flag's printed form: the values joined by commas. */
    function String(): (s: string)
      reads this
      ensures items == [] ==> s == ""
      ensures |s| == Text.TotalLength(items) + (if items == [] then 0 else |items| - 1)
      ensures items != [] && (forall i :: 0 <= i < |items| ==> ',' !in items[i]) ==>
                Text.Split(s, ',') == items
    {
      Text.JoinLength(items, ",");
      var joined := Text.Join(items, ",");
      if items != [] && (forall i :: 0 <= i < |items| ==> ',' !in items[i]) then
        Text.SplitJoin(items, ',');
        joined
      else joined
    }

    /** flag.Value.Set: appends one value and never fails. */
    method Set(value: string) returns (r: Status)
      modifies this
      ensures r == Ok
      ensures items == old(items) + [value]
      ensures String() == if old(items) == [] then value else old(String()) + "," + value
    {
      if items != [] {
        Text.JoinSnoc(items, value, ",");
      }
      items := items + [value];
      r := Ok;
    }
  }
}
