/** Command dispatch: a command name is normalised to a method name
    ("Cmd" + upper-cased first character + lower-cased rest) and looked up in
    the closed table of handler methods of the daemon. */
module Dispatch {
  import opened Types
  import opened Text

  /** The exported Cmd* handler methods of the daemon. */
  datatype Command = Help | Layers | Get | Put | Export | Run | Clone | List

  /** The command word as a user types it in lower case. */
  function Word(c: Command): string
  {
    match c
    case Help => "help"
    case Layers => "layers"
    case Get => "get"
    case Put => "put"
    case Export => "export"
    case Run => "run"
    case Clone => "clone"
    case List => "list"
  }

  /** The handler's method name. */
  function MethodName(c: Command): string
  {
    match c
    case Help => "CmdHelp"
    case Layers => "CmdLayers"
    case Get => "CmdGet"
    case Put => "CmdPut"
    case Export => "CmdExport"
    case Run => "CmdRun"
    case Clone => "CmdClone"
    case List => "CmdList"
  }

  /** The set of command words that resolve to a handler. */
  function Words(): set<string>
  {
    {"help", "layers", "get", "put", "export", "run", "clone", "list"}
  }

  /** MethodByName over the static table: finds the handler with exactly this name. */
  function Lookup(methodName: string): (r: Option<Command>)
    ensures r.Some? ==> MethodName(r.value) == methodName
    ensures r.None? ==> forall c: Command :: MethodName(c) != methodName
  {
    if methodName == "CmdHelp" then Some(Help)
    else if methodName == "CmdLayers" then Some(Layers)
    else if methodName == "CmdGet" then Some(Get)
    else if methodName == "CmdPut" then Some(Put)
    else if methodName == "CmdExport" then Some(Export)
    else if methodName == "CmdRun" then Some(Run)
    else if methodName == "CmdClone" then Some(Clone)
    else if methodName == "CmdList" then Some(List)
    else None
  }

  /** "Cmd" + strings.ToUpper(name[:1]) + strings.ToLower(name[1:]). */
  function Normalize(name: string): (m: string)
    requires |name| > 0
    ensures |m| == 3 + |name| && m[..3] == "Cmd"
    ensures 'a' <= name[0] <= 'z' ==> m[3] as int == name[0] as int - 32
    ensures !('a' <= name[0] <= 'z') ==> m[3] == name[0]
    ensures forall i :: 4 <= i < |m| ==> m[i] == LowerChar(name[i - 3])
  {
    "Cmd" + [UpperAscii(name[0])] + Lower(name[1..])
  }

  /** getMethod: the handler for a command name, or nil. An empty name makes
      the source panic, so it is excluded here and handled by the callers. */
  function GetMethod(name: string): (r: Option<Command>)
    requires |name| > 0
    ensures r.Some? <==> exists c: Command :: MethodName(c) == Normalize(name)
  {
    Lookup(Normalize(name))
  }

  /** Every method name is "Cmd" followed by its word with the first letter
      upper-cased; no word starts with a letter that a non-ASCII code point
      lowers to. */
  lemma MethodNameIsTitled(c: Command)
    ensures |Word(c)| > 0 && 'a' <= Word(c)[0] <= 'z'
    ensures Word(c)[0] != 'i' && Word(c)[0] != 'k'
    ensures MethodName(c) == "Cmd" + [UpperAscii(Word(c)[0])] + Word(c)[1..]
  {
  }

  /** Normalising matches a titled word exactly when the name lower-cases to it. */
  lemma {:induction false} TitledMatch(name: string, w: string)
    requires |name| > 0 && |w| > 0
    requires 'a' <= w[0] <= 'z' && w[0] != 'i' && w[0] != 'k'
    ensures Normalize(name) == "Cmd" + [UpperAscii(w[0])] + w[1..] <==> Lower(name) == w
  {
    var a := Normalize(name);
    var b := "Cmd" + [UpperAscii(w[0])] + w[1..];
    var low := Lower(name);
    assert low[1..] == Lower(name[1..]);
    assert UpperAscii(name[0]) == UpperAscii(w[0]) <==> LowerChar(name[0]) == w[0];
    if a == b {
      assert a[3] == b[3];
      assert a[4..] == Lower(name[1..]) && b[4..] == w[1..];
      assert low == [low[0]] + low[1..];
      assert w == [w[0]] + w[1..];
    }
    if low == w {
      assert low[0] == w[0];
      assert Lower(name[1..]) == w[1..];
    }
  }

  /** getMethod finds a handler exactly when the name, lower-cased, is that
      handler's command word. */
  lemma GetMethodFinds(name: string, c: Command)
    requires |name| > 0
    ensures GetMethod(name) == Some(c) <==> Lower(name) == Word(c)
  {
    MethodNameIsTitled(c);
    TitledMatch(name, Word(c));
  }

  /** getMethod returns nil exactly for names outside the eight commands. */
  lemma GetMethodUnknown(name: string)
    requires |name| > 0
    ensures GetMethod(name) == None <==> Lower(name) !in Words()
  {
    if GetMethod(name).Some? {
      GetMethodFinds(name, GetMethod(name).value);
    }
    if Lower(name) in Words() {
      var c :| c in [Help, Layers, Get, Put, Export, Run, Clone, List] && Word(c) == Lower(name);
      GetMethodFinds(name, c);
    }
  }

  /** Lookup is insensitive to case: names that lower-case alike resolve alike. */
  lemma GetMethodIgnoresCase(a: string, b: string)
    requires |a| > 0 && |b| > 0
    requires Lower(a) == Lower(b)
    ensures GetMethod(a) == GetMethod(b)
  {
    if GetMethod(a).Some? {
      GetMethodFinds(a, GetMethod(a).value);
      GetMethodFinds(b, GetMethod(a).value);
    } else if GetMethod(b).Some? {
      GetMethodFinds(b, GetMethod(b).value);
      GetMethodFinds(a, GetMethod(b).value);
    }
  }

  /** "run", "Run" and "RUN" all resolve to the run handler. */
  lemma RunSpellings()
    ensures GetMethod("run") == GetMethod("Run") == GetMethod("RUN") == Some(Run)
  {
    GetMethodFinds("run", Run);
    GetMethodFinds("Run", Run);
    GetMethodFinds("RUN", Run);
  }
}
