/** `NodeDependencyResolver` (NSLoader/DependencyResolver.cpp): expands a
    named asset into a self-contained `Node` tree. An experience expands into
    patterns, a pattern into sequences, and a sequence is stamped with the area
    and strength of the request. The asset loader is a value: one map from name
    to loaded definition per asset kind, and a name that is not in the map is
    the not-loaded failure. */
module DependencyResolver {
  import opened Outcomes
  import opened EnumTranslator
  import opened HapticArgs

  datatype EffectType = Sequence | Pattern | Experience

  /** A loaded or resolved unit of haptic content. `effect` is the effect name
      of a sequence, or the name of the asset a child refers to. */
  datatype Node = Node(kind: EffectType, effect: string, area: uint32, strength: real, time: real, children: seq<Node>)

  /** The definitions the loader holds, one map per asset kind. */
  datatype AssetStore = AssetStore(sequences: map<string, Node>, patterns: map<string, Node>, experiences: map<string, Node>)

  /** An asset file handed to the loader: its kind, the name it is registered
      under, and its root node, or `None` when the loader cannot read or parse it. */
  datatype AssetFile = AssetFile(kind: EffectType, name: string, definition: Option<Node>)

  /** `HapticsNotLoadedException`, raised for the arguments of the failed request. */
  datatype NotLoaded = NotLoaded(args: Args)

  /** The exception's `what()` text. */
  function Message(e: NotLoaded): string
  {
    "Attempted to resolve " + ToString(e.args) + ", but it was not loaded so failed."
  }

  /** The error message names the requested asset, right after the fixed prefix. */
  lemma MessageNamesAsset(e: NotLoaded)
    ensures |Message(e)| == 55 + |e.args.name|
    ensures Message(e)[..21] == "Attempted to resolve "
    ensures Message(e)[21..21 + |e.args.name|] == e.args.name
  {
    var m := Message(e);
    assert m == "Attempted to resolve " + e.args.name + ", but it was not loaded so failed.";
  }

  /** `Node packedRoot(kind)`: a fresh node of the given kind with nothing but its effect filled in. */
  function Packed(kind: EffectType, effect: string): Node
  {
    Node(kind, effect, 0, 0.0, 0.0, [])
  }

  /** The sequence request a pattern makes for one of its children. */
  function ChildSequenceArgs(n: Node): Args
  {
    SequenceArgs(n.effect, n.area, n.strength)
  }

  /** The pattern request an experience makes for one of its children. */
  function ChildPatternArgs(n: Node): Args
  {
    PatternArgs(n.effect, Side.NotSpecified)
  }

  /** `Resolve(const SequenceArgs&)`: the loaded sequence with the requested area and strength. */
  function ResolveSequence(store: AssetStore, args: Args): (r: Result<Node, NotLoaded>)
    requires args.SequenceArgs?
    ensures r.Success? <==> args.name in store.sequences
    ensures r.Failure? ==> r.error == NotLoaded(args)
    ensures r.Success? ==>
      var root := store.sequences[args.name];
      && r.value.area == args.location && r.value.strength == args.strength
      && r.value.kind == root.kind && r.value.effect == root.effect
      && r.value.time == root.time && r.value.children == root.children
  {
    if args.name !in store.sequences then Failure(NotLoaded(args))
    else Success(store.sequences[args.name].(area := args.location, strength := args.strength))
  }

  /** The loop of `Resolve(const PatternArgs&)`: every child resolved as a
      sequence with its own name, area and strength, and its time put back.
      The first child that is not loaded aborts the whole loop. */
  function ResolvePatternChildren(store: AssetStore, cs: seq<Node>): (r: Result<seq<Node>, NotLoaded>)
    ensures r.Success? <==> forall i :: 0 <= i < |cs| ==> cs[i].effect in store.sequences
    ensures r.Success? ==> |r.value| == |cs|
    ensures r.Success? ==> forall i :: 0 <= i < |cs| ==>
      r.value[i] == ResolveSequence(store, ChildSequenceArgs(cs[i])).value.(time := cs[i].time)
    ensures r.Failure? ==> exists i :: (0 <= i < |cs| && r.error == NotLoaded(ChildSequenceArgs(cs[i]))
      && cs[i].effect !in store.sequences
      && forall j :: 0 <= j < i ==> cs[j].effect in store.sequences)
    decreases |cs|
  {
    if |cs| == 0 then Success([])
    else
      var head := ResolveSequence(store, ChildSequenceArgs(cs[0]));
      if head.Failure? then Failure(head.error)
      else
        var tail := ResolvePatternChildren(store, cs[1..]);
        if tail.Failure? then
          ghost var i :| 0 <= i < |cs| - 1 && tail.error == NotLoaded(ChildSequenceArgs(cs[1..][i]))
            && cs[1..][i].effect !in store.sequences && forall j :: 0 <= j < i ==> cs[1..][j].effect in store.sequences;
          assert tail.error == NotLoaded(ChildSequenceArgs(cs[i + 1]));
          Failure(tail.error)
        else
          Success([head.value.(time := cs[0].time)] + tail.value)
  }

  /** `Resolve(const PatternArgs&)`: a Pattern node with the loaded root's
      effect and strength whose children are the resolved sequences, in order.
      The side is not read. */
  function ResolvePattern(store: AssetStore, args: Args): (r: Result<Node, NotLoaded>)
    requires args.PatternArgs?
    ensures r.Success? <==> (args.name in store.patterns
      && forall i :: 0 <= i < |store.patterns[args.name].children| ==>
           store.patterns[args.name].children[i].effect in store.sequences)
    ensures args.name !in store.patterns ==> r == Failure(NotLoaded(args))
    ensures r.Success? ==>
      var root := store.patterns[args.name];
      && r.value.kind == Pattern && r.value.effect == root.effect && r.value.strength == root.strength
      && |r.value.children| == |root.children|
      && forall i :: 0 <= i < |root.children| ==>
           r.value.children[i] == ResolveSequence(store, ChildSequenceArgs(root.children[i])).value.(time := root.children[i].time)
  {
    if args.name !in store.patterns then Failure(NotLoaded(args))
    else
      var root := store.patterns[args.name];
      var children :- ResolvePatternChildren(store, root.children);
      Success(Packed(Pattern, root.effect).(children := children, strength := root.strength))
  }

  /** The loop of `Resolve(const ExperienceArgs&)`: every child resolved as a
      pattern with an unspecified side, and its time put back. */
  function ResolveExperienceChildren(store: AssetStore, cs: seq<Node>): (r: Result<seq<Node>, NotLoaded>)
    ensures r.Success? <==> forall i :: 0 <= i < |cs| ==> ResolvePattern(store, ChildPatternArgs(cs[i])).Success?
    ensures r.Success? ==> |r.value| == |cs|
    ensures r.Success? ==> forall i :: 0 <= i < |cs| ==>
      r.value[i] == ResolvePattern(store, ChildPatternArgs(cs[i])).value.(time := cs[i].time)
    ensures r.Failure? ==> exists i :: (0 <= i < |cs| && ResolvePattern(store, ChildPatternArgs(cs[i])).Failure?
      && r.error == ResolvePattern(store, ChildPatternArgs(cs[i])).error
      && forall j :: 0 <= j < i ==> ResolvePattern(store, ChildPatternArgs(cs[j])).Success?)
    decreases |cs|
  {
    if |cs| == 0 then Success([])
    else
      var head := ResolvePattern(store, ChildPatternArgs(cs[0]));
      if head.Failure? then Failure(head.error)
      else
        var tail := ResolveExperienceChildren(store, cs[1..]);
        if tail.Failure? then
          ghost var i :| 0 <= i < |cs| - 1 && ResolvePattern(store, ChildPatternArgs(cs[1..][i])).Failure?
            && tail.error == ResolvePattern(store, ChildPatternArgs(cs[1..][i])).error
            && forall j :: 0 <= j < i ==> ResolvePattern(store, ChildPatternArgs(cs[1..][j])).Success?;
          assert ResolvePattern(store, ChildPatternArgs(cs[i + 1])).Failure?;
          Failure(tail.error)
        else
          Success([head.value.(time := cs[0].time)] + tail.value)
  }

  /** `Resolve(const ExperienceArgs&)`: an Experience node with the loaded
      root's effect whose children are the resolved patterns, in order. */
  function ResolveExperience(store: AssetStore, args: Args): (r: Result<Node, NotLoaded>)
    requires args.ExperienceArgs?
    ensures r.Success? <==> (args.name in store.experiences
      && forall i :: 0 <= i < |store.experiences[args.name].children| ==>
           ResolvePattern(store, ChildPatternArgs(store.experiences[args.name].children[i])).Success?)
    ensures args.name !in store.experiences ==> r == Failure(NotLoaded(args))
    ensures r.Success? ==>
      var root := store.experiences[args.name];
      && r.value.kind == Experience && r.value.effect == root.effect
      && |r.value.children| == |root.children|
      && forall i :: 0 <= i < |root.children| ==>
           r.value.children[i] == ResolvePattern(store, ChildPatternArgs(root.children[i])).value.(time := root.children[i].time)
  {
    if args.name !in store.experiences then Failure(NotLoaded(args))
    else
      var root := store.experiences[args.name];
      var children :- ResolveExperienceChildren(store, root.children);
      Success(Packed(Experience, root.effect).(children := children))
  }

  /** `Load`: reports whether the loader accepted the file. An accepted file is
      registered under its name in the map of its kind; a rejected one leaves the
      store as it was. */
  function Load(store: AssetStore, file: AssetFile): (r: (bool, AssetStore))
    ensures r.0 <==> file.definition.Some?
    ensures !r.0 ==> r.1 == store
    ensures r.0 ==> file.name in LoadedNames(r.1, file.kind) && Loaded(r.1, file.kind)[file.name] == file.definition.value
    ensures forall k :: k != file.kind ==> Loaded(r.1, k) == Loaded(store, k)
    ensures forall n :: n != file.name && n in Loaded(store, file.kind) ==>
      n in Loaded(r.1, file.kind) && Loaded(r.1, file.kind)[n] == Loaded(store, file.kind)[n]
    ensures LoadedNames(r.1, file.kind) <= LoadedNames(store, file.kind) + {file.name}
  {
    match file.definition
    case None => (false, store)
    case Some(root) =>
      match file.kind
      case Sequence => (true, store.(sequences := store.sequences[file.name := root]))
      case Pattern => (true, store.(patterns := store.patterns[file.name := root]))
      case Experience => (true, store.(experiences := store.experiences[file.name := root]))
  }

  /** The definitions of one asset kind. */
  function Loaded(store: AssetStore, kind: EffectType): map<string, Node>
  {
    match kind
    case Sequence => store.sequences
    case Pattern => store.patterns
    case Experience => store.experiences
  }

  /** The names loaded for one asset kind. */
  function LoadedNames(store: AssetStore, kind: EffectType): set<string>
  {
    Loaded(store, kind).Keys
  }

  /** Once a sequence is loaded, resolving it no longer fails, whatever the
      requested area and strength, and it yields the loaded definition with
      those stamped on. */
  lemma LoadThenResolveSequence(store: AssetStore, name: string, definition: Node, area: uint32, strength: real)
    ensures var r := ResolveSequence(Load(store, AssetFile(Sequence, name, Some(definition))).1, SequenceArgs(name, area, strength));
      r == Success(definition.(area := area, strength := strength))
  {
  }

  /** The side of a pattern request is never read: two requests that differ
      only in their side succeed or fail together, give the same node, and
      report the same message. */
  lemma PatternSideIgnored(store: AssetStore, name: string, s1: Side, s2: Side)
    ensures var r1, r2 := ResolvePattern(store, PatternArgs(name, s1)), ResolvePattern(store, PatternArgs(name, s2));
      && r1.Success? == r2.Success?
      && (r1.Success? ==> r1.value == r2.value)
      && (r1.Failure? ==> Message(r1.error) == Message(r2.error))
  {
  }

  /** The same holds for experience requests. */
  lemma ExperienceSideIgnored(store: AssetStore, name: string, s1: Side, s2: Side)
    ensures var r1, r2 := ResolveExperience(store, ExperienceArgs(name, s1)), ResolveExperience(store, ExperienceArgs(name, s2));
      && r1.Success? == r2.Success?
      && (r1.Success? ==> r1.value == r2.value)
      && (r1.Failure? ==> Message(r1.error) == Message(r2.error))
  {
  }

  /** A two-pattern experience: "warning" plays "alert_left" at 0 and
      "alert_right" at 0.5, and each of those plays the sequence "buzz" on the
      chest at strength 0.8. The resolved experience has two pattern children
      at times 0 and 0.5, each with one sequence child at strength 0.8 on the
      chest. */
  lemma WarningScenario(chest: uint32, buzz: Node)
    ensures
      var child := Node(Sequence, "buzz", chest, 0.8, 0.0, []);
      var store := AssetStore(
        map["buzz" := buzz],
        map["alert_left" := Node(Pattern, "alert_left", 0, 1.0, 0.0, [child]),
            "alert_right" := Node(Pattern, "alert_right", 0, 1.0, 0.0, [child])],
        map["warning" := Node(Experience, "warning", 0, 1.0, 0.0,
                              [Node(Pattern, "alert_left", 0, 1.0, 0.0, []), Node(Pattern, "alert_right", 0, 1.0, 0.5, [])])]);
      var r := ResolveExperience(store, ExperienceArgs("warning", Side.Inherit));
      && r.Success? && r.value.kind == Experience && |r.value.children| == 2
      && r.value.children[0].kind == Pattern && r.value.children[0].time == 0.0
      && r.value.children[1].kind == Pattern && r.value.children[1].time == 0.5
      && |r.value.children[0].children| == 1 && |r.value.children[1].children| == 1
      && r.value.children[0].children[0].strength == 0.8 && r.value.children[1].children[0].strength == 0.8
      && r.value.children[0].children[0].area == chest && r.value.children[1].children[0].area == chest
  {
    var child := Node(Sequence, "buzz", chest, 0.8, 0.0, []);
    var store := AssetStore(
      map["buzz" := buzz],
      map["alert_left" := Node(Pattern, "alert_left", 0, 1.0, 0.0, [child]),
          "alert_right" := Node(Pattern, "alert_right", 0, 1.0, 0.0, [child])],
      map["warning" := Node(Experience, "warning", 0, 1.0, 0.0,
                            [Node(Pattern, "alert_left", 0, 1.0, 0.0, []), Node(Pattern, "alert_right", 0, 1.0, 0.5, [])])]);
    var left := ResolvePattern(store, PatternArgs("alert_left", Side.NotSpecified));
    var right := ResolvePattern(store, PatternArgs("alert_right", Side.NotSpecified));
    assert left.Success? && right.Success?;
  }
}
