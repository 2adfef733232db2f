/** How `run` turns its -l references into a container's layer list, and the
    shape the two registry maps keep. */
module LayerResolution {
  import opened Types

  /** The layers of a successful resolution, or the first reference that
      names neither a layer nor a container. */
  datatype Resolution = Resolved(layers: seq<Layer>) | Unresolved(name: string)

  /** One -l reference: a layer id gives that layer; otherwise a container id
      gives that container's layers; otherwise nothing. Names are never consulted. */
  function Piece(ref: string, layers: map<string, Layer>, containers: map<string, ContainerEntry>)
    : (p: Option<seq<Layer>>)
    ensures p.Some? <==> ref in layers || ref in containers
    ensures ref in layers ==> p == Some([layers[ref]])
    ensures ref !in layers && ref in containers ==> p == Some(containers[ref].layers)
  {
    if ref in layers then Some([layers[ref]])
    else if ref in containers then Some(containers[ref].layers)
    else None
  }

  /** The loop of CmdRun over the references, in flag order: pieces are appended
      until a reference fails to resolve. */
  function Resolve(refs: seq<string>, layers: map<string, Layer>, containers: map<string, ContainerEntry>)
    : (r: Resolution)
    ensures refs == [] ==> r == Resolved([])
    ensures r.Unresolved? ==> r.name in refs && r.name !in layers && r.name !in containers
    decreases |refs|
  {
    if refs == [] then Resolved([])
    else
      match Resolve(refs[..|refs| - 1], layers, containers)
      case Unresolved(name) => Unresolved(name)
      case Resolved(done) =>
        match Piece(refs[|refs| - 1], layers, containers)
        case None => Unresolved(refs[|refs| - 1])
        case Some(piece) => Resolved(done + piece)
  }

  /** Resolving `a` then `b`: the first failure wins, otherwise the layers concatenate. */
  function Then(first: Resolution, second: Resolution): Resolution
  {
    match first
    case Unresolved(_) => first
    case Resolved(front) =>
      match second
      case Unresolved(_) => second
      case Resolved(back) => Resolved(front + back)
  }

  /** A layer that is registered under its own id. */
  ghost predicate Registered(layers: map<string, Layer>, l: Layer)
  {
    l.id in layers && layers[l.id] == l
  }

  /** The shape the registry keeps: every entry is stored under its own id,
      layer ids and container ids never coincide, registered containers are
      never marked running (Run only ever changes a local copy), and every
      container holds at least one layer, each of them registered. */
  ghost predicate WellFormed(layers: map<string, Layer>, containers: map<string, ContainerEntry>)
  {
    && (forall id :: id in layers ==> layers[id].id == id && id !in containers)
    && (forall id :: id in containers ==>
          containers[id].id == id && !containers[id].running && |containers[id].layers| > 0)
    && (forall id, l :: id in containers && l in containers[id].layers ==> Registered(layers, l))
  }

  /** Registering a new, not running container whose layers are all
      registered keeps the registry well formed. */
  lemma RegisterKeepsWellFormed(layers: map<string, Layer>, containers: map<string, ContainerEntry>,
                                entry: ContainerEntry)
    requires WellFormed(layers, containers)
    requires entry.id !in layers && !entry.running && |entry.layers| > 0
    requires forall l :: l in entry.layers ==> Registered(layers, l)
    ensures WellFormed(layers, containers[entry.id := entry])
  {
  }

  /** Resolution distributes over concatenation of reference lists. */
  lemma {:induction false} ResolveAppend(a: seq<string>, b: seq<string>,
                                         layers: map<string, Layer>, containers: map<string, ContainerEntry>)
    ensures Resolve(a + b, layers, containers) ==
            Then(Resolve(a, layers, containers), Resolve(b, layers, containers))
    decreases |b|
  {
    if b == [] {
      assert a + b == a;
      match Resolve(a, layers, containers)
      case Unresolved(_) =>
      case Resolved(front) => assert front + [] == front;
    } else {
      var init := b[..|b| - 1];
      var last := b[|b| - 1];
      assert (a + b)[..|a + b| - 1] == a + init;
      assert (a + b)[|a + b| - 1] == last;
      ResolveAppend(a, init, layers, containers);
      match Resolve(a, layers, containers)
      case Unresolved(_) =>
      case Resolved(front) =>
        match Resolve(init, layers, containers)
        case Unresolved(_) =>
        case Resolved(mid) =>
          match Piece(last, layers, containers)
          case None =>
          case Some(piece) => assert front + mid + piece == front + (mid + piece);
    }
  }

  /** Resolution fails exactly when some reference names neither a layer nor a
      container, and it reports the first such reference. */
  lemma {:induction false} ResolveFailsAtFirstUnknown(refs: seq<string>,
                                                      layers: map<string, Layer>, containers: map<string, ContainerEntry>)
    ensures Resolve(refs, layers, containers).Unresolved? <==>
            exists i :: 0 <= i < |refs| && Piece(refs[i], layers, containers).None?
    ensures Resolve(refs, layers, containers).Unresolved? ==>
            exists i :: && 0 <= i < |refs|
                         && refs[i] == Resolve(refs, layers, containers).name
                         && Piece(refs[i], layers, containers).None?
                         && forall j :: 0 <= j < i ==> Piece(refs[j], layers, containers).Some?
    decreases |refs|
  {
    if refs != [] {
      var init := refs[..|refs| - 1];
      ResolveFailsAtFirstUnknown(init, layers, containers);
      forall i | 0 <= i < |init| ensures init[i] == refs[i] { }
      if Resolve(init, layers, containers).Unresolved? {
        var i :| && 0 <= i < |init|
                 && init[i] == Resolve(init, layers, containers).name
                 && Piece(init[i], layers, containers).None?
                 && forall j :: 0 <= j < i ==> Piece(init[j], layers, containers).Some?;
        assert refs[i] == init[i];
      } else if Piece(refs[|refs| - 1], layers, containers).None? {
        var i := |refs| - 1;
        assert forall j :: 0 <= j < i ==> Piece(refs[j], layers, containers).Some? by {
          forall j | 0 <= j < i ensures Piece(refs[j], layers, containers).Some? {
            assert refs[j] == init[j];
          }
        }
      } else {
        forall i | 0 <= i < |refs| ensures Piece(refs[i], layers, containers).Some? {
          if i < |init| { assert refs[i] == init[i]; }
        }
      }
    }
  }

  /** In a well-formed registry every resolved layer is registered and each
      reference contributes at least one layer. */
  lemma {:induction false} ResolvedLayersRegistered(refs: seq<string>,
                                                    layers: map<string, Layer>, containers: map<string, ContainerEntry>)
    requires WellFormed(layers, containers)
    ensures Resolve(refs, layers, containers).Resolved? ==>
            && |Resolve(refs, layers, containers).layers| >= |refs|
            && forall l :: l in Resolve(refs, layers, containers).layers ==> Registered(layers, l)
    decreases |refs|
  {
    if refs != [] {
      ResolvedLayersRegistered(refs[..|refs| - 1], layers, containers);
    }
  }

  /** A container id that is not also a layer id resolves to that container's
      layers, in their stored order. */
  lemma ResolveContainerId(id: string, layers: map<string, Layer>, containers: map<string, ContainerEntry>)
    requires id !in layers && id in containers
    ensures Resolve([id], layers, containers) == Resolved(containers[id].layers)
  {
  }
}
