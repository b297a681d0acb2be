/** The evolution-chain walk: starting from the chain's root species,
    every child link yields one edge (parent → child, with the child's
    evolution details localised) followed by the edges of the child's
    own subtree; the nested arrays this produces are then flattened. */
module Evolution {
  import opened Outcomes
  import opened Localisation
  import Formatting

  // ---------------------------------------------------------------
  // Records
  // ---------------------------------------------------------------

  /** One `evolution_details` record. `item`, `known_move_type` and
      `location` are named references or null (`None`); the remaining
      scalar fields (minimum level, time of day, ...) are carried along
      untouched in `otherFields`. */
  datatype Detail = Detail(
    trigger: string,
    item: Option<string>,
    knownMoveType: Option<string>,
    location: Option<string>,
    otherFields: map<string, string>)

  /** A node of `evolution_chain.chain`. */
  datatype ChainLink = ChainLink(species: string, evolutionDetails: seq<Detail>, evolvesTo: seq<ChainLink>)

  datatype SpeciesRecord = SpeciesRecord(id: nat, names: seq<Entry>)

  /** What the upstream fetchers return, by name: a species record, and
      the `names` list of an evolution trigger, an item, a type or a
      location. */
  datatype Upstream = Upstream(
    species: string -> SpeciesRecord,
    triggerNames: string -> seq<Entry>,
    itemNames: string -> seq<Entry>,
    typeNames: string -> seq<Entry>,
    locationNames: string -> seq<Entry>)

  /** A detail record with its references replaced by localised names. */
  datatype ResolvedDetail = ResolvedDetail(
    trigger: string,
    item: Option<string>,
    knownMoveType: Option<string>,
    location: Option<string>,
    otherFields: map<string, string>)

  datatype SpeciesView = SpeciesView(name: string, spriteUrl: string, id: nat)

  datatype Edge = Edge(from: SpeciesView, to: SpeciesView, detail: seq<ResolvedDetail>)

  /** The arrays-within-arrays the recursive `Promise.all` returns. */
  datatype Nested = Leaf(edge: Edge) | Group(items: seq<Nested>)

  // ---------------------------------------------------------------
  // One edge
  // ---------------------------------------------------------------

  /** An optional reference: null stays null, otherwise the referenced
      record's first name in `lang`, which must exist. */
  function OptionalName(ref: Option<string>, names: string -> seq<Entry>, lang: string): (r: Result<Option<string>>)
    ensures ref.None? ==> r == Success(None)
    ensures ref.Some? ==> (r.Success? <==> FirstFor(names(ref.value), lang).Some?)
    ensures ref.Some? && r.Success? ==> r.value == FirstFor(names(ref.value), lang)
  {
    match ref
    case None => Success(None)
    case Some(n) =>
      var name :- Required(names(n), lang);
      Success(Some(name))
  }

  predicate Localisable(ref: Option<string>, names: string -> seq<Entry>, lang: string) {
    ref.Some? ==> FirstFor(names(ref.value), lang).Some?
  }

  /** Detail resolution in `getEvolutionDetails`: the trigger's name in `lang`; item, move type and
      location are null exactly when the record's field is absent and
      otherwise their name in `lang`; every other field is kept. */
  function ResolveDetail(lang: string, up: Upstream, d: Detail): (r: Result<ResolvedDetail>)
    ensures r.Success? <==> FirstFor(up.triggerNames(d.trigger), lang).Some?
                            && Localisable(d.item, up.itemNames, lang)
                            && Localisable(d.knownMoveType, up.typeNames, lang)
                            && Localisable(d.location, up.locationNames, lang)
    ensures r.Success? ==> FirstFor(up.triggerNames(d.trigger), lang) == Some(r.value.trigger)
    ensures r.Success? ==> (r.value.item.None? <==> d.item.None?)
                           && (r.value.knownMoveType.None? <==> d.knownMoveType.None?)
                           && (r.value.location.None? <==> d.location.None?)
    ensures r.Success? && d.item.Some? ==> r.value.item == FirstFor(up.itemNames(d.item.value), lang)
    ensures r.Success? && d.knownMoveType.Some? ==>
              r.value.knownMoveType == FirstFor(up.typeNames(d.knownMoveType.value), lang)
    ensures r.Success? && d.location.Some? ==> r.value.location == FirstFor(up.locationNames(d.location.value), lang)
    ensures r.Success? ==> r.value.otherFields == d.otherFields
  {
    var trigger :- Required(up.triggerNames(d.trigger), lang);
    var item :- OptionalName(d.item, up.itemNames, lang);
    var moveType :- OptionalName(d.knownMoveType, up.typeNames, lang);
    var location :- OptionalName(d.location, up.locationNames, lang);
    Success(ResolvedDetail(trigger, item, moveType, location, d.otherFields))
  }

  /** Detail resolution in `getEvolutionDetails` as written: each localised name starts out null and
      is overwritten when the record carries that reference. */
  method ResolveDetailSteps(lang: string, up: Upstream, d: Detail) returns (r: Result<ResolvedDetail>)
    ensures r == ResolveDetail(lang, up, d)
  {
    var trigger := FirstFor(up.triggerNames(d.trigger), lang);
    if trigger.None? {
      return Failure(LocalisationMissing);
    }
    var itemName: Option<string> := None;
    if d.item.Some? {
      itemName := FirstFor(up.itemNames(d.item.value), lang);
      if itemName.None? {
        return Failure(LocalisationMissing);
      }
    }
    var moveTypeName: Option<string> := None;
    if d.knownMoveType.Some? {
      moveTypeName := FirstFor(up.typeNames(d.knownMoveType.value), lang);
      if moveTypeName.None? {
        return Failure(LocalisationMissing);
      }
    }
    var locationName: Option<string> := None;
    if d.location.Some? {
      locationName := FirstFor(up.locationNames(d.location.value), lang);
      if locationName.None? {
        return Failure(LocalisationMissing);
      }
    }
    r := Success(ResolvedDetail(trigger.value, itemName, moveTypeName, locationName, d.otherFields));
  }

  /** One end of an edge: the species' name in `lang`, its sprite, its id. */
  function View(lang: string, rec: SpeciesRecord): (r: Result<SpeciesView>)
    ensures r.Success? <==> FirstFor(rec.names, lang).Some?
    ensures r.Success? ==> r.value.id == rec.id && r.value.spriteUrl == Formatting.SpriteUrl(rec.id)
                           && FirstFor(rec.names, lang) == Some(r.value.name)
  {
    var name :- Required(rec.names, lang);
    Success(SpeciesView(name, Formatting.SpriteUrl(rec.id), rec.id))
  }

  /** The edge from species `from` to `child`: one resolved detail per
      `evolution_details` record, in order. */
  function EdgeFor(lang: string, up: Upstream, from: string, child: ChainLink): (r: Result<Edge>)
    ensures r.Success? <==> View(lang, up.species(from)).Success?
                            && View(lang, up.species(child.species)).Success?
                            && forall i :: 0 <= i < |child.evolutionDetails| ==>
                                 ResolveDetail(lang, up, child.evolutionDetails[i]).Success?
    ensures r.Success? ==> View(lang, up.species(from)) == Success(r.value.from)
                           && View(lang, up.species(child.species)) == Success(r.value.to)
    ensures r.Success? ==> |r.value.detail| == |child.evolutionDetails|
                           && forall i :: 0 <= i < |child.evolutionDetails| ==>
                                ResolveDetail(lang, up, child.evolutionDetails[i]) == Success(r.value.detail[i])
  {
    var fromView :- View(lang, up.species(from));
    var toView :- View(lang, up.species(child.species));
    var detail :- MapAll(child.evolutionDetails, (d: Detail) => ResolveDetail(lang, up, d));
    Success(Edge(fromView, toView, detail))
  }

  // ---------------------------------------------------------------
  // The recursive walk (getEvolutionDetails) and flattenDeep
  // ---------------------------------------------------------------

  /** `getEvolutionDetails(language, from, evolves_to)`: one entry per
      child, in order (`WalkPerChild`); any failure fails the whole walk. */
  function Walk(lang: string, up: Upstream, from: string, children: seq<ChainLink>): (r: Result<seq<Nested>>)
    ensures r.Success? ==> |r.value| == |children|
    decreases children
  {
    if children == [] then Success([])
    else
      var head :- Branch(lang, up, from, children[0]);
      var tail :- Walk(lang, up, from, children[1..]);
      Success([head] + tail)
  }

  /** One child: `[edge, ...chains]`, the edge from `from` to the child,
      followed by one entry per grandchild (`BranchShape`). */
  function Branch(lang: string, up: Upstream, from: string, child: ChainLink): (r: Result<Nested>)
    ensures r.Success? ==> r.value.Group? && |r.value.items| == 1 + |child.evolvesTo|
    decreases child
  {
    var edge :- EdgeFor(lang, up, from, child);
    var chains :- Walk(lang, up, child.species, child.evolvesTo);
    Success(Group([Leaf(edge)] + chains))
  }

  /** One unfolding of the walk over a non-empty list of children. */
  lemma WalkCons(lang: string, up: Upstream, from: string, children: seq<ChainLink>)
    requires children != []
    ensures Walk(lang, up, from, children).Success? <==>
              Branch(lang, up, from, children[0]).Success? && Walk(lang, up, from, children[1..]).Success?
    ensures Walk(lang, up, from, children).Success? ==>
              Walk(lang, up, from, children).value
                == [Branch(lang, up, from, children[0]).value] + Walk(lang, up, from, children[1..]).value
  {
  }

  /** The walk is `Promise.all` over the children's entries. */
  lemma {:induction false} WalkIsMapAll(lang: string, up: Upstream, from: string, children: seq<ChainLink>)
    ensures Walk(lang, up, from, children) == MapAll(children, (c: ChainLink) => Branch(lang, up, from, c))
    decreases children
  {
    if children != [] {
      WalkIsMapAll(lang, up, from, children[1..]);
    }
  }

  /** The walk succeeds exactly when every child's entry does, and its
      i-th entry is the i-th child's entry. */
  lemma WalkPerChild(lang: string, up: Upstream, from: string, children: seq<ChainLink>)
    ensures Walk(lang, up, from, children).Success? <==>
              forall i :: 0 <= i < |children| ==> Branch(lang, up, from, children[i]).Success?
    ensures Walk(lang, up, from, children).Success? ==>
              forall i :: 0 <= i < |children| ==>
                Branch(lang, up, from, children[i]) == Success(Walk(lang, up, from, children).value[i])
  {
    WalkIsMapAll(lang, up, from, children);
  }

  /** A child's entry is its edge followed by one entry per grandchild,
      in order; it fails when the edge or any grandchild's entry fails. */
  lemma BranchShape(lang: string, up: Upstream, from: string, child: ChainLink)
    ensures Branch(lang, up, from, child).Success? <==>
              EdgeFor(lang, up, from, child).Success?
              && forall j :: 0 <= j < |child.evolvesTo| ==> Branch(lang, up, child.species, child.evolvesTo[j]).Success?
    ensures Branch(lang, up, from, child).Success? ==>
              var items := Branch(lang, up, from, child).value.items;
              items[0] == Leaf(EdgeFor(lang, up, from, child).value)
              && forall j :: 0 <= j < |child.evolvesTo| ==>
                   Branch(lang, up, child.species, child.evolvesTo[j]) == Success(items[j + 1])
  {
    var edge := EdgeFor(lang, up, from, child);
    var chains := Walk(lang, up, child.species, child.evolvesTo);
    WalkPerChild(lang, up, child.species, child.evolvesTo);
    if edge.Success? && chains.Success? {
      PrependShifts(Leaf(edge.value), chains.value);
      assert Branch(lang, up, from, child) == Success(Group([Leaf(edge.value)] + chains.value));
    } else {
      assert Branch(lang, up, from, child).Failure?;
    }
  }

  /** Prepending one element shifts every index by one. */
  lemma PrependShifts<T>(x: T, xs: seq<T>)
    ensures ([x] + xs)[0] == x
    ensures forall j :: 0 <= j < |xs| ==> ([x] + xs)[j + 1] == xs[j]
  {
  }

  /** lodash `flattenDeep`: every edge, left to right, at any depth;
      no edge is lost and none is added. */
  function Flatten(ns: seq<Nested>): (r: seq<Edge>)
    ensures forall i, e :: 0 <= i < |ns| && e in FlattenOne(ns[i]) ==> e in r
    ensures forall e :: e in r ==> exists i :: 0 <= i < |ns| && e in FlattenOne(ns[i])
    decreases ns
  {
    if ns == [] then []
    else
      var rest := Flatten(ns[1..]);
      assert forall i :: 1 <= i < |ns| ==> ns[i] == ns[1..][i - 1];
      FlattenOne(ns[0]) + rest
  }

  function FlattenOne(n: Nested): seq<Edge>
    decreases n
  {
    match n
    case Leaf(e) => [e]
    case Group(items) => Flatten(items)
  }

  /** `chains.regular` in `getPokemon`: `flattenDeep` of the walk from
      the chain's root species over the root's children, which is the
      pre-order list of parent/child steps, each turned into its edge. */
  function RegularChains(lang: string, up: Upstream, root: ChainLink): (r: Result<seq<Edge>>)
    ensures r == StepEdges(lang, up, Steps(root.species, root.evolvesTo))
  {
    WalkIsPreOrder(lang, up, root.species, root.evolvesTo);
    FlatWalk(lang, up, root.species, root.evolvesTo)
  }

  function FlatWalk(lang: string, up: Upstream, from: string, children: seq<ChainLink>): Result<seq<Edge>> {
    var nested :- Walk(lang, up, from, children);
    Success(Flatten(nested))
  }

  // ---------------------------------------------------------------
  // Reference definition: the pre-order list of parent/child steps
  // ---------------------------------------------------------------

  datatype Step = Step(from: string, child: ChainLink)

  /** For each child in order: the step parent → child, then every step
      of the child's subtree. */
  function Steps(from: string, children: seq<ChainLink>): seq<Step>
    decreases children
  {
    if children == [] then []
    else [Step(from, children[0])] + Steps(children[0].species, children[0].evolvesTo) + Steps(from, children[1..])
  }

  function StepEdges(lang: string, up: Upstream, steps: seq<Step>): Result<seq<Edge>> {
    MapAll(steps, (s: Step) => EdgeFor(lang, up, s.from, s.child))
  }

  lemma FlattenCons(n: Nested, rest: seq<Nested>)
    ensures Flatten([n] + rest) == FlattenOne(n) + Flatten(rest)
  {
    assert ([n] + rest)[0] == n;
    assert ([n] + rest)[1..] == rest;
  }

  /** Flattening a child's entry ahead of its siblings' entries. */
  lemma FlattenGroup(e: Edge, chains: seq<Nested>, siblings: seq<Nested>)
    ensures Flatten([Group([Leaf(e)] + chains)] + siblings) == [e] + Flatten(chains) + Flatten(siblings)
  {
    FlattenCons(Group([Leaf(e)] + chains), siblings);
    FlattenCons(Leaf(e), chains);
  }

  /** The walk over a non-empty list of children: the first child's
      edge, then its subtree, then the remaining siblings. */
  lemma FlatWalkCons(lang: string, up: Upstream, from: string, children: seq<ChainLink>)
    requires children != []
    ensures FlatWalk(lang, up, from, children)
         == Both(Both(One(EdgeFor(lang, up, from, children[0])),
                      FlatWalk(lang, up, children[0].species, children[0].evolvesTo)),
                 FlatWalk(lang, up, from, children[1..]))
  {
    var c := children[0];
    var edge := EdgeFor(lang, up, from, c);
    var chains := Walk(lang, up, c.species, c.evolvesTo);
    var tail := Walk(lang, up, from, children[1..]);
    WalkCons(lang, up, from, children);
    if edge.Success? && chains.Success? && tail.Success? {
      assert Branch(lang, up, from, c) == Success(Group([Leaf(edge.value)] + chains.value));
      FlattenGroup(edge.value, chains.value, tail.value);
    }
  }

  /** The same decomposition for the reference list of steps. */
  lemma StepEdgesCons(lang: string, up: Upstream, from: string, children: seq<ChainLink>)
    requires children != []
    ensures StepEdges(lang, up, Steps(from, children))
         == Both(Both(One(EdgeFor(lang, up, from, children[0])),
                      StepEdges(lang, up, Steps(children[0].species, children[0].evolvesTo))),
                 StepEdges(lang, up, Steps(from, children[1..])))
  {
    var c := children[0];
    var first := [Step(from, c)];
    var sub := Steps(c.species, c.evolvesTo);
    var rest := Steps(from, children[1..]);
    var f := (s: Step) => EdgeFor(lang, up, s.from, s.child);
    assert StepEdges(lang, up, Steps(from, children)) == MapAll(first + sub + rest, f);
    MapAllAppend(first + sub, rest, f);
    MapAllAppend(first, sub, f);
    MapAllSingle(Step(from, c), f);
  }

  /** The flattened walk is exactly the pre-order list of steps, each
      turned into its edge; it fails exactly when some step's edge
      cannot be localised. */
  lemma {:induction false} WalkIsPreOrder(lang: string, up: Upstream, from: string, children: seq<ChainLink>)
    ensures FlatWalk(lang, up, from, children) == StepEdges(lang, up, Steps(from, children))
    decreases children
  {
    if children != [] {
      WalkIsPreOrder(lang, up, children[0].species, children[0].evolvesTo);
      WalkIsPreOrder(lang, up, from, children[1..]);
      FlatWalkCons(lang, up, from, children);
      StepEdgesCons(lang, up, from, children);
    }
  }

  // ---------------------------------------------------------------
  // Counting
  // ---------------------------------------------------------------

  function NodeCount(link: ChainLink): nat
    decreases link
  {
    1 + NodeCountAll(link.evolvesTo)
  }

  function NodeCountAll(links: seq<ChainLink>): nat
    decreases links
  {
    if links == [] then 0 else NodeCount(links[0]) + NodeCountAll(links[1..])
  }

  lemma {:induction false} StepsCount(from: string, children: seq<ChainLink>)
    ensures |Steps(from, children)| == NodeCountAll(children)
    decreases children
  {
    if children != [] {
      StepsCount(children[0].species, children[0].evolvesTo);
      StepsCount(from, children[1..]);
    }
  }

  /** The regular chain has one edge per species other than the root,
      the i-th being the edge of the i-th pre-order step. */
  lemma RegularChainsShape(lang: string, up: Upstream, root: ChainLink)
    ensures var steps := Steps(root.species, root.evolvesTo);
            |steps| == NodeCount(root) - 1
            && (RegularChains(lang, up, root).Success? <==>
                  forall i :: 0 <= i < |steps| ==> EdgeFor(lang, up, steps[i].from, steps[i].child).Success?)
            && (RegularChains(lang, up, root).Success? ==>
                  |RegularChains(lang, up, root).value| == |steps|
                  && forall i :: 0 <= i < |steps| ==>
                       EdgeFor(lang, up, steps[i].from, steps[i].child) == Success(RegularChains(lang, up, root).value[i]))
  {
    StepsCount(root.species, root.evolvesTo);
    WalkIsPreOrder(lang, up, root.species, root.evolvesTo);
  }

  /** A → [B, C] with B → [D] gives A→B, B→D, A→C: each child's subtree
      is finished before the next sibling. */
  lemma PreOrderExample()
    ensures var d := ChainLink("D", [], []);
            var b := ChainLink("B", [], [d]);
            var c := ChainLink("C", [], []);
            Steps("A", [b, c]) == [Step("A", b), Step("B", d), Step("A", c)]
  {
    var d := ChainLink("D", [], []);
    var b := ChainLink("B", [], [d]);
    var c := ChainLink("C", [], []);
    assert [b, c][1..] == [c];
    assert [c][1..] == [];
    assert [d][1..] == [];
    assert Steps("B", [d]) == [Step("B", d)];
    assert Steps("A", [c]) == [Step("A", c)];
    assert Steps("A", [b, c]) == [Step("A", b)] + Steps("B", [d]) + Steps("A", [c]);
  }
}
