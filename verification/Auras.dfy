/**
 Aura caches (hearthstone_simulator/simulator/aura.rs): discovery from the
 world, replacement of a whole category, and the refresh of one provider.
 */
module Auras {
  import opened Outcomes
  import opened Players
  import opened Sorting

  type EntityId = nat

  datatype Kind = PlayerKind | Hero | Minion | OtherKind
  datatype Category = Health | Attack | Other

  datatype AuraTarget =
    | FriendlyMinions | OtherFriendlyMinions | EnemyMinions | AllMinions
    | FriendlyCharacters | OtherFriendlyCharacters | EnemyCharacters | AllCharacters
    | ControllerPlayer | OpponentPlayer | BothPlayers

  datatype OtherModifier = ImmuneModifier | HeroPowerDamageModifier(amount: int)

  datatype Definition = Definition(targets: AuraTarget, attack: int, health: int, other: seq<OtherModifier>)

  datatype Modifier = AttackBonus(amount: int) | MaximumHealth(amount: int) | Immune | HeroPowerDamage(amount: int)

  datatype Application = Application(provider: EntityId, definition: nat, modifier: Modifier)

  datatype Entity = Entity(kind: Kind, inPlay: bool, hasStats: bool, controller: PlayerId, silenced: bool,
                           playOrder: nat, auras: seq<Definition>)

  /** The entities, and their ids in whatever order the store iterates over them. */
  datatype World = World(entities: map<EntityId, Entity>, listing: seq<EntityId>)

  ghost predicate Lists(w: World, ids: seq<EntityId>) {
    NoRepeats(ids) && forall x :: x in ids <==> x in w.entities
  }

  ghost predicate ValidWorld(w: World) {
    Lists(w, w.listing)
  }

  function OrderOf(w: World, x: EntityId): nat {
    if x in w.entities then w.entities[x].playOrder else 0
  }

  /** Earlier in order of play, and by id among entities of one order. */
  predicate PlaysBefore(w: World, x: EntityId, y: EntityId) {
    OrderOf(w, x) < OrderOf(w, y) || (OrderOf(w, x) == OrderOf(w, y) && x < y)
  }

  function PlayOrder(w: World): (before: Order)
    ensures forall x: nat, y: nat :: before(x, y) == PlaysBefore(w, x, y)
  {
    (x: nat, y: nat) => PlaysBefore(w, x, y)
  }

  function IdOrder(): (before: Order)
    ensures forall x: nat, y: nat :: before(x, y) == (x < y)
  {
    (x: nat, y: nat) => x < y
  }

  lemma OrdersAreTotal(w: World)
    ensures StrictTotal(PlayOrder(w)) && StrictTotal(IdOrder())
  {
  }

  /** Sorting the listing lists the same entities. */
  lemma SortedLists(w: World, before: Order)
    requires ValidWorld(w) && StrictTotal(before)
    ensures Lists(w, Sort(before, w.listing)) && Sorted(before, Sort(before, w.listing))
  {
    SortedBySort(before, w.listing);
    SortedMeansNoRepeats(before, Sort(before, w.listing));
  }

  function ByPlayOrder(w: World): (ids: seq<EntityId>)
    requires ValidWorld(w)
    ensures Lists(w, ids) && Sorted(PlayOrder(w), ids)
  {
    OrdersAreTotal(w);
    SortedLists(w, PlayOrder(w));
    Sort(PlayOrder(w), w.listing)
  }

  function ById(w: World): (ids: seq<EntityId>)
    requires ValidWorld(w)
    ensures Lists(w, ids) && Sorted(IdOrder(), ids)
  {
    OrdersAreTotal(w);
    SortedLists(w, IdOrder());
    Sort(IdOrder(), w.listing)
  }

  predicate Provides(e: Entity) {
    e.inPlay && !e.silenced
  }

  predicate Receives(e: Entity) {
    e.kind == PlayerKind || (e.inPlay && e.hasStats)
  }

  predicate Matches(selector: AuraTarget, provider: EntityId, controller: PlayerId, target: EntityId, e: Entity) {
    var friendly, minion := controller == e.controller, e.kind == Minion;
    var character, player, other := e.kind == Hero || e.kind == Minion, e.kind == PlayerKind, provider != target;
    match selector
    case FriendlyMinions => friendly && minion
    case OtherFriendlyMinions => friendly && minion && other
    case EnemyMinions => !friendly && minion
    case AllMinions => minion
    case FriendlyCharacters => friendly && character
    case OtherFriendlyCharacters => friendly && character && other
    case EnemyCharacters => !friendly && character
    case AllCharacters => character
    case ControllerPlayer => friendly && player
    case OpponentPlayer => !friendly && player
    case BothPlayers => player
  }

  // ---------- What discovery finds for one target ----------

  function Others(provider: EntityId, index: nat, other: seq<OtherModifier>): (apps: seq<Application>)
    ensures forall a :: a in apps ==> a.provider == provider
  {
    if other == [] then [] else
      [Application(provider, index, match other[0]
         case ImmuneModifier => Immune
         case HeroPowerDamageModifier(amount) => HeroPowerDamage(amount))] + Others(provider, index, other[1..])
  }

  /** The applications of one definition in one category. */
  function OfDefinition(provider: EntityId, index: nat, d: Definition, category: Category): (apps: seq<Application>)
    ensures forall a :: a in apps ==> a.provider == provider
  {
    match category
    case Health => if d.health != 0 then [Application(provider, index, MaximumHealth(d.health))] else []
    case Attack => if d.attack != 0 then [Application(provider, index, AttackBonus(d.attack))] else []
    case Other => Others(provider, index, d.other)
  }

  /** What the first definitions of a provider give a target. */
  function OfProvider(w: World, provider: EntityId, count: nat, category: Category,
                      target: EntityId): (apps: seq<Application>)
    requires provider in w.entities && count <= |w.entities[provider].auras| && target in w.entities
    ensures forall a :: a in apps ==> a.provider == provider
    decreases count
  {
    if count == 0 then [] else
      var d := w.entities[provider].auras[count - 1];
      OfProvider(w, provider, count - 1, category, target)
      + if Matches(d.targets, provider, w.entities[provider].controller, target, w.entities[target])
        then OfDefinition(provider, count - 1, d, category) else []
  }

  /** The active ones among these ids, and the one provider asked for when only one is. */
  function Providers(w: World, only: Option<EntityId>, ids: seq<EntityId>): (active: seq<EntityId>)
    requires forall x :: x in ids ==> x in w.entities
    ensures forall x :: x in active <==> x in ids && Provides(w.entities[x]) && (only.Some? ==> only.value == x)
  {
    if ids == [] then [] else
      var last := ids[|ids| - 1];
      Providers(w, only, ids[..|ids| - 1])
      + if Provides(w.entities[last]) && (only.Some? ==> only.value == last) then [last] else []
  }

  /** All applications a target gets from these providers, in their order. */
  function Found(w: World, providers: seq<EntityId>, category: Category, target: EntityId): (apps: seq<Application>)
    requires forall x :: x in providers ==> x in w.entities
    ensures forall a :: a in apps ==> a.provider in providers
    decreases |providers|
  {
    if providers == [] || target !in w.entities || !Receives(w.entities[target]) then [] else
      var last := providers[|providers| - 1];
      assert forall x :: x in providers[..|providers| - 1] ==> x in providers;
      Found(w, providers[..|providers| - 1], category, target)
      + OfProvider(w, last, |w.entities[last].auras|, category, target)
  }

  type Applications = map<(Category, EntityId), seq<Application>>

  function Get(m: Applications, category: Category, target: EntityId): seq<Application> {
    if (category, target) in m then m[(category, target)] else []
  }

  function AllFound(w: World, only: Option<EntityId>, category: Category, target: EntityId): seq<Application>
    requires ValidWorld(w)
  {
    Found(w, Providers(w, only, ByPlayOrder(w)), category, target)
  }

  // ---------- Discovery ----------

  function PushAll(m: Applications, category: Category, target: EntityId, apps: seq<Application>): (r: Applications)
    ensures forall c: Category, t: EntityId ::
      Get(r, c, t) == if c == category && t == target then Get(m, c, t) + apps else Get(m, c, t)
    ensures forall key :: key in r ==> key in m || (key == (category, target) && apps != [])
  {
    if apps == [] then
      assert Get(m, category, target) + apps == Get(m, category, target);
      m
    else m[(category, target) := Get(m, category, target) + apps]
  }

  /** One definition applied to one matching target, in all three categories. */
  function PushDefinition(m: Applications, provider: EntityId, j: nat, d: Definition,
                          target: EntityId): (r: Applications)
    ensures forall c: Category, t: EntityId ::
      Get(r, c, t) == (if t == target then Get(m, c, t) + OfDefinition(provider, j, d, c) else Get(m, c, t))
  {
    PushAll(PushAll(PushAll(m, Health, target, OfDefinition(provider, j, d, Health)),
                    Attack, target, OfDefinition(provider, j, d, Attack)),
            Other, target, OfDefinition(provider, j, d, Other))
  }

  predicate Useful(w: World, m: Applications) {
    forall key :: key in m ==> m[key] != [] && key.1 in w.entities
  }

  lemma PushDefinitionIsUseful(w: World, m: Applications, provider: EntityId, j: nat, d: Definition, target: EntityId)
    requires Useful(w, m) && target in w.entities
    ensures Useful(w, PushDefinition(m, provider, j, d, target))
  {
  }

  /** Runs over providers, their definitions and all targets, collecting applications by category and target. */
  method Discover(w: World, only: Option<EntityId>) returns (found: Applications)
    requires ValidWorld(w)
    ensures forall c: Category, t: EntityId :: Get(found, c, t) == AllFound(w, only, c, t)
    ensures Useful(w, found)
  {
    found := DiscoverFrom(w, ActiveInPlayOrder(w, only));
  }

  method DiscoverFrom(w: World, providers: seq<EntityId>) returns (found: Applications)
    requires ValidWorld(w) && forall x :: x in providers ==> x in w.entities
    ensures Holds(w, providers, found) && Useful(w, found)
  {
    found := map[];
    ghost var before: seq<EntityId> := [];
    var i := 0;
    while i < |providers|
      invariant 0 <= i <= |providers| && before == providers[..i]
      invariant Holds(w, before, found)
      invariant Useful(w, found)
    {
      assert providers[i] in providers;
      found := DiscoverProvider(w, before, providers[i], found);
      before := before + [providers[i]];
      i := i + 1;
    }
    assert before == providers;
  }

  /** The collection holds what these providers give. */
  ghost predicate Holds(w: World, providers: seq<EntityId>, found: Applications) {
    && (forall x :: x in providers ==> x in w.entities)
    && forall c: Category, t: EntityId :: Get(found, c, t) == Found(w, providers, c, t)
  }

  /** Sorting the providers found in the listing gives those found in the sorted listing. */
  lemma FilteredThenSorted(w: World, only: Option<EntityId>)
    requires ValidWorld(w)
    ensures Sort(PlayOrder(w), Providers(w, only, w.listing)) == Providers(w, only, ByPlayOrder(w))
  {
    var before := PlayOrder(w);
    OrdersAreTotal(w);
    ProvidersDoNotRepeat(w, only, w.listing);
    SortedBySort(before, Providers(w, only, w.listing));
    ProvidersStaySorted(w, only, before, ByPlayOrder(w));
    SortedListsAreEqual(before, Sort(before, Providers(w, only, w.listing)), Providers(w, only, ByPlayOrder(w)));
  }

  /** The active providers, picked from the listing and then sorted. */
  function ActiveInPlayOrder(w: World, only: Option<EntityId>): (ids: seq<EntityId>)
    requires ValidWorld(w)
    ensures ids == Providers(w, only, ByPlayOrder(w))
  {
    FilteredThenSorted(w, only);
    Sort(PlayOrder(w), Providers(w, only, w.listing))
  }

  method DiscoverProvider(w: World, ghost before: seq<EntityId>, provider: EntityId, start: Applications)
    returns (found: Applications)
    requires ValidWorld(w) && provider in w.entities && Holds(w, before, start) && Useful(w, start)
    ensures Holds(w, before + [provider], found) && Useful(w, found)
  {
    found := DiscoverDefinitions(w, provider, start);
    ProviderAdded(w, before, provider, start, found);
  }

  lemma ProviderAdded(w: World, before: seq<EntityId>, provider: EntityId, start: Applications, found: Applications)
    requires provider in w.entities && Holds(w, before, start)
    requires GivenSoFar(w, provider, |w.entities[provider].auras|, start, found)
    ensures Holds(w, before + [provider], found)
  {
    forall c: Category, t: EntityId ensures Get(found, c, t) == Found(w, before + [provider], c, t) {
      FoundNext(w, before, provider, c, t);
    }
  }

  method DiscoverDefinitions(w: World, provider: EntityId, start: Applications) returns (found: Applications)
    requires ValidWorld(w) && provider in w.entities && Useful(w, start)
    ensures GivenSoFar(w, provider, |w.entities[provider].auras|, start, found)
    ensures Useful(w, found)
  {
    found := start;
    var j := 0;
    NothingGiven(w, provider, start);
    while j < |w.entities[provider].auras|
      invariant 0 <= j <= |w.entities[provider].auras|
      invariant GivenSoFar(w, provider, j, start, found)
      invariant Useful(w, found)
    {
      ghost var previous := found;
      found := DiscoverDefinition(w, provider, j, found);
      OneMoreGiven(w, provider, j, start, previous, found);
      j := j + 1;
    }
  }

  ghost predicate GivenSoFar(w: World, provider: EntityId, count: nat, start: Applications, found: Applications)
    requires provider in w.entities && count <= |w.entities[provider].auras|
  {
    forall c: Category, t: EntityId :: Get(found, c, t) == Get(start, c, t) + Given(w, provider, count, c, t)
  }

  lemma NothingGiven(w: World, provider: EntityId, start: Applications)
    requires provider in w.entities
    ensures GivenSoFar(w, provider, 0, start, start)
  {
    forall c: Category, t: EntityId ensures Get(start, c, t) == Get(start, c, t) + Given(w, provider, 0, c, t) {
      assert Given(w, provider, 0, c, t) == [];
    }
  }

  lemma OneMoreGiven(w: World, provider: EntityId, j: nat, start: Applications, previous: Applications,
                     found: Applications)
    requires provider in w.entities && j < |w.entities[provider].auras|
    requires GivenSoFar(w, provider, j, start, previous)
    requires forall c: Category, t: EntityId ::
      Get(found, c, t) == Get(previous, c, t) + NewlyGiven(w, provider, j, c, t)
    ensures GivenSoFar(w, provider, j + 1, start, found)
  {
    forall c: Category, t: EntityId ensures Get(found, c, t) == Get(start, c, t) + Given(w, provider, j + 1, c, t) {
      GivenNext(w, provider, j, c, t, Get(start, c, t), Get(previous, c, t), Get(found, c, t));
    }
  }

  lemma GivenNext(w: World, provider: EntityId, j: nat, c: Category, t: EntityId,
                  start: seq<Application>, previous: seq<Application>, found: seq<Application>)
    requires provider in w.entities && j < |w.entities[provider].auras|
    requires previous == start + Given(w, provider, j, c, t)
    requires found == previous + NewlyGiven(w, provider, j, c, t)
    ensures found == start + Given(w, provider, j + 1, c, t)
  {
    GivenGrows(w, provider, j, c, t);
    Associates(start, Given(w, provider, j, c, t), NewlyGiven(w, provider, j, c, t));
  }

  lemma GivenGrows(w: World, provider: EntityId, j: nat, c: Category, t: EntityId)
    requires provider in w.entities && j < |w.entities[provider].auras|
    ensures Given(w, provider, j + 1, c, t) == Given(w, provider, j, c, t) + NewlyGiven(w, provider, j, c, t)
  {
  }

  lemma Associates(xs: seq<Application>, ys: seq<Application>, zs: seq<Application>)
    ensures xs + ys + zs == xs + (ys + zs)
  {
  }

  lemma FoundNext(w: World, before: seq<EntityId>, provider: EntityId, c: Category, t: EntityId)
    requires provider in w.entities && forall x :: x in before ==> x in w.entities
    ensures forall x :: x in before + [provider] ==> x in w.entities
    ensures Found(w, before + [provider], c, t) ==
            Found(w, before, c, t) + Given(w, provider, |w.entities[provider].auras|, c, t)
  {
    assert (before + [provider])[..|before|] == before;
  }

  /** What a target that receives gets from the first definitions of a provider. */
  function Given(w: World, provider: EntityId, count: nat, category: Category, target: EntityId): seq<Application>
    requires provider in w.entities && count <= |w.entities[provider].auras|
  {
    if target in w.entities && Receives(w.entities[target])
    then OfProvider(w, provider, count, category, target) else []
  }

  /** One target visited for one definition. */
  method VisitTarget(w: World, provider: EntityId, j: nat, target: EntityId,
                     start: Applications) returns (found: Applications)
    requires provider in w.entities && j < |w.entities[provider].auras| && target in w.entities && Useful(w, start)
    ensures forall c: Category, t: EntityId ::
      Get(found, c, t) == Get(start, c, t) + (if t == target then NewlyGiven(w, provider, j, c, t) else [])
    ensures Useful(w, found)
  {
    var d := w.entities[provider].auras[j];
    found := start;
    if Receives(w.entities[target])
       && Matches(d.targets, provider, w.entities[provider].controller, target, w.entities[target]) {
      found := PushDefinition(start, provider, j, d, target);
      PushDefinitionIsUseful(w, start, provider, j, d, target);
    }
  }

  method DiscoverDefinition(w: World, provider: EntityId, j: nat, start: Applications) returns (found: Applications)
    requires ValidWorld(w) && provider in w.entities && j < |w.entities[provider].auras| && Useful(w, start)
    ensures forall c: Category, t: EntityId :: Get(found, c, t) == Get(start, c, t) + NewlyGiven(w, provider, j, c, t)
    ensures Useful(w, found)
  {
    found := VisitTargets(w, ById(w), provider, j, start);
  }

  method VisitTargets(w: World, targets: seq<EntityId>, provider: EntityId, j: nat,
                      start: Applications) returns (found: Applications)
    requires Lists(w, targets) && provider in w.entities && j < |w.entities[provider].auras| && Useful(w, start)
    ensures forall c: Category, t: EntityId :: Get(found, c, t) == Get(start, c, t) + NewlyGiven(w, provider, j, c, t)
    ensures Useful(w, found)
  {
    found := start;
    var k := 0;
    while k < |targets|
      invariant 0 <= k <= |targets|
      invariant forall c: Category, t: EntityId ::
        Get(found, c, t) == Get(start, c, t) + SoFar(w, provider, j, targets[..k], c, t)
      invariant Useful(w, found)
    {
      assert targets[k] in targets;
      ghost var previous := found;
      found := VisitTarget(w, provider, j, targets[k], found);
      assert targets[..k + 1] == targets[..k] + [targets[k]];
      forall c: Category, t: EntityId
        ensures Get(found, c, t) == Get(start, c, t) + SoFar(w, provider, j, targets[..k + 1], c, t)
      {
        VisitGives(w, provider, j, targets[..k], targets[k], c, t, Get(start, c, t), Get(previous, c, t),
                   Get(found, c, t));
      }
      k := k + 1;
    }
    assert targets[..k] == targets;
  }

  lemma VisitGives(w: World, provider: EntityId, j: nat, visited: seq<EntityId>, target: EntityId, c: Category,
                   t: EntityId, start: seq<Application>, previous: seq<Application>, found: seq<Application>)
    requires provider in w.entities && j < |w.entities[provider].auras| && target !in visited
    requires previous == start + SoFar(w, provider, j, visited, c, t)
    requires found == previous + (if t == target then NewlyGiven(w, provider, j, c, t) else [])
    ensures found == start + SoFar(w, provider, j, visited + [target], c, t)
  {
  }

  /** What the target has been given once these targets have been visited. */
  function SoFar(w: World, provider: EntityId, j: nat, visited: seq<EntityId>, category: Category,
                 target: EntityId): seq<Application>
    requires provider in w.entities && j < |w.entities[provider].auras|
  {
    if target in visited then NewlyGiven(w, provider, j, category, target) else []
  }

  function NewlyGiven(w: World, provider: EntityId, j: nat, category: Category, target: EntityId): seq<Application>
    requires provider in w.entities && j < |w.entities[provider].auras|
  {
    var d := w.entities[provider].auras[j];
    if target in w.entities && Receives(w.entities[target])
       && Matches(d.targets, provider, w.entities[provider].controller, target, w.entities[target])
    then OfDefinition(provider, j, d, category) else []
  }

  // ---------- The caches ----------

  predicate OnEntities(w: World, caches: Applications) {
    forall key :: key in caches ==> key.1 in w.entities
  }

  function Without(apps: seq<Application>, provider: EntityId): seq<Application> {
    if apps == [] then [] else
      var earlier, last := Without(apps[..|apps| - 1], provider), apps[|apps| - 1];
      if last.provider == provider then earlier else earlier + [last]
  }

  /** A cache after one provider's applications are dropped and its new ones put at the end. */
  function Merged(apps: seq<Application>, provider: EntityId, found: seq<Application>): seq<Application> {
    Without(apps, provider) + found
  }

  /** The targets that have a cache of this category. */
  function Targets(m: Applications, category: Category): (targets: set<EntityId>)
    ensures forall t :: t in targets <==> (category, t) in m
  {
    set key: (Category, EntityId) | key in m && key.0 == category :: key.1
  }

  /** The targets whose cache of this category holds something from the provider. */
  function TargetsWith(m: Applications, category: Category, provider: EntityId): (targets: set<EntityId>)
    ensures forall t :: t in targets <==> (category, t) in m && exists a ::
      a in m[(category, t)] && a.provider == provider
  {
    set key: (Category, EntityId) | key in m && key.0 == category
      && (exists a :: a in m[key] && a.provider == provider) :: key.1
  }

  ghost predicate ReplacedBut(w: World, targets: set<EntityId>, category: Category, found: Applications,
                              before: Applications, after: Applications) {
    && (forall t :: t in targets ==> t in w.entities)
    && (forall t: EntityId :: Get(after, category, t) == Get(found, category, t) || t in targets)
    && (forall c: Category, t: EntityId :: c != category ==> Get(after, c, t) == Get(before, c, t))
  }

  ghost predicate MergedBut(w: World, targets: set<EntityId>, category: Category, provider: EntityId,
                            found: Applications,
                            before: Applications, after: Applications) {
    && (forall t :: t in targets ==> t in w.entities)
    && (forall t: EntityId :: Get(after, category, t) ==
         if t in targets then Get(before, category, t)
           else Merged(Get(before, category, t), provider, Get(found, category, t)))
    && (forall c: Category, t: EntityId :: c != category ==> Get(after, c, t) == Get(before, c, t))
  }

  ghost predicate OnlySets(previous: Applications, after: Applications, category: Category, target: EntityId,
                           apps: seq<Application>) {
    forall c: Category, t: EntityId ::
      Get(after, c, t) == if c == category && t == target then apps else Get(previous, c, t)
  }

  lemma OneMoreReplaced(w: World, targets: set<EntityId>, target: EntityId, category: Category, found: Applications,
                        before: Applications, previous: Applications, after: Applications)
    requires target in targets && ReplacedBut(w, targets, category, found, before, previous)
    requires OnlySets(previous, after, category, target, Get(found, category, target))
    ensures ReplacedBut(w, targets - {target}, category, found, before, after)
  {
  }

  lemma OneMoreMerged(w: World, targets: set<EntityId>, target: EntityId, category: Category, provider: EntityId,
                      found: Applications, before: Applications, previous: Applications, after: Applications)
    requires target in targets && MergedBut(w, targets, category, provider, found, before, previous)
    requires OnlySets(previous, after, category, target,
                      Merged(Get(previous, category, target), provider, Get(found, category, target)))
    ensures MergedBut(w, targets - {target}, category, provider, found, before, after)
  {
  }

  lemma UntouchedTargets(m: Applications, category: Category, provider: EntityId, found: Applications)
    ensures forall t: EntityId :: t !in Targets(found, category) + TargetsWith(m, category, provider) ==>
      Merged(Get(m, category, t), provider, Get(found, category, t)) == Get(m, category, t)
  {
    forall t: EntityId | t !in Targets(found, category) + TargetsWith(m, category, provider)
      ensures Merged(Get(m, category, t), provider, Get(found, category, t)) == Get(m, category, t)
    {
      WithoutStrangers(Get(m, category, t), provider);
    }
  }

  class AuraCaches {
    var caches: Applications

    /** Writes a cache only when its entity exists and its contents change. */
    method SetCache(w: World, category: Category, target: EntityId, apps: seq<Application>)
      requires OnEntities(w, caches)
      modifies this
      ensures OnEntities(w, caches)
      ensures if target in w.entities then OnlySets(old(caches), caches, category, target, apps)
        else caches == old(caches)
    {
      if target in w.entities && Get(caches, category, target) != apps { caches := caches[(category, target) := apps]; }
    }

    /** Every cache of the category becomes what was discovered, and stale ones become empty. */
    method ReplaceCategory(w: World, category: Category, found: Applications)
      requires OnEntities(w, caches) && OnEntities(w, found)
      modifies this
      ensures OnEntities(w, caches)
      ensures forall c: Category, t: EntityId ::
        Get(caches, c, t) == if c == category then Get(found, c, t) else Get(old(caches), c, t)
    {
      var targets := Targets(found, category) + Targets(caches, category);
      ghost var before := caches;
      assert ReplacedBut(w, targets, category, found, before, caches);
      while targets != {}
        invariant OnEntities(w, caches)
        invariant ReplacedBut(w, targets, category, found, before, caches)
        decreases |targets|
      {
        var target :| target in targets;
        ghost var previous := caches;
        SetCache(w, category, target, Get(found, category, target));
        OneMoreReplaced(w, targets, target, category, found, before, previous, caches);
        targets := targets - {target};
      }
    }

    /** Each cache of the category drops what the provider gave before and takes what it gives now. */
    method MergeProviderCategory(w: World, category: Category, provider: EntityId, found: Applications)
      requires OnEntities(w, caches) && OnEntities(w, found)
      modifies this
      ensures OnEntities(w, caches)
      ensures forall c: Category, t: EntityId ::
        Get(caches, c, t) == (if c == category then Merged(Get(old(caches), c, t), provider, Get(found, c, t))
                              else Get(old(caches), c, t))
    {
      var targets := Targets(found, category) + TargetsWith(caches, category, provider);
      ghost var before := caches;
      UntouchedTargets(caches, category, provider, found);
      assert MergedBut(w, targets, category, provider, found, before, caches);
      while targets != {}
        invariant OnEntities(w, caches)
        invariant MergedBut(w, targets, category, provider, found, before, caches)
        decreases |targets|
      {
        var target :| target in targets;
        ghost var previous := caches;
        SetCache(w, category, target, Merged(Get(caches, category, target), provider, Get(found, category, target)));
        OneMoreMerged(w, targets, target, category, provider, found, before, previous, caches);
        targets := targets - {target};
      }
    }

    method RefreshAll(w: World)
      requires ValidWorld(w) && OnEntities(w, caches)
      modifies this
      ensures OnEntities(w, caches)
      ensures forall c: Category, t: EntityId :: Get(caches, c, t) == AllFound(w, None, c, t)
    {
      var found := Discover(w, None);
      ReplaceCategory(w, Health, found);
      ReplaceCategory(w, Attack, found);
      ReplaceCategory(w, Other, found);
    }

    /** After deaths, attack and other auras are refreshed, and health auras deliberately are not. */
    method RefreshAfterDeaths(w: World)
      requires ValidWorld(w) && OnEntities(w, caches)
      modifies this
      ensures OnEntities(w, caches)
      ensures forall c: Category, t: EntityId ::
        Get(caches, c, t) == if c == Health then Get(old(caches), c, t) else AllFound(w, None, c, t)
    {
      var found := Discover(w, None);
      ReplaceCategory(w, Attack, found);
      ReplaceCategory(w, Other, found);
    }

    method RefreshHealthAttack(w: World)
      requires ValidWorld(w) && OnEntities(w, caches)
      modifies this
      ensures OnEntities(w, caches)
      ensures forall c: Category, t: EntityId ::
        Get(caches, c, t) == if c == Other then Get(old(caches), c, t) else AllFound(w, None, c, t)
    {
      var found := Discover(w, None);
      ReplaceCategory(w, Health, found);
      ReplaceCategory(w, Attack, found);
    }

    method RefreshProvider(w: World, provider: EntityId)
      requires ValidWorld(w) && OnEntities(w, caches)
      modifies this
      ensures OnEntities(w, caches)
      ensures forall c: Category, t: EntityId ::
        Get(caches, c, t) == Refreshed(w, provider, Get(old(caches), c, t), c, t)
    {
      var found := Discover(w, Some(provider));
      ghost var before := caches;
      MergeProviderCategory(w, Health, provider, found);
      ghost var health := caches;
      MergeProviderCategory(w, Attack, provider, found);
      ghost var attack := caches;
      MergeProviderCategory(w, Other, provider, found);
      forall c: Category, t: EntityId ensures Get(caches, c, t) == Refreshed(w, provider, Get(before, c, t), c, t) {
        assert Get(found, c, t) == AllFound(w, Some(provider), c, t);
        assert Get(health, c, t) == if c == Health then Get(caches, c, t) else Get(before, c, t);
        assert Get(attack, c, t) == if c == Other then Get(before, c, t) else Get(caches, c, t);
      }
    }

    /** Refreshing the active providers one after the other in order of play, from empty caches, is a full refresh. */
    method RefreshEachProvider(w: World)
      requires ValidWorld(w) && caches == map[]
      modifies this
      ensures forall c: Category, t: EntityId :: Get(caches, c, t) == AllFound(w, None, c, t)
    {
      ProvidersDoNotRepeat(w, None, ByPlayOrder(w));
      RefreshInOrder(w, Providers(w, None, ByPlayOrder(w)));
    }

    method RefreshInOrder(w: World, providers: seq<EntityId>)
      requires ValidWorld(w) && caches == map[] && NoRepeats(providers)
      requires forall x :: x in providers ==> x in w.entities && Provides(w.entities[x])
      modifies this
      ensures Holds(w, providers, caches)
    {
      ghost var before: seq<EntityId> := [];
      var i := 0;
      while i < |providers|
        invariant 0 <= i <= |providers| && before == providers[..i]
        invariant OnEntities(w, caches) && Holds(w, before, caches)
      {
        ghost var previous := caches;
        assert providers[i] in providers && providers[i] !in before;
        RefreshProvider(w, providers[i]);
        NextRefresh(w, before, providers[i], previous, caches);
        before := before + [providers[i]];
        i := i + 1;
      }
      assert before == providers;
    }
  }

  /** What the refresh of one provider makes of a cache. */
  function Refreshed(w: World, provider: EntityId, apps: seq<Application>, category: Category,
                     target: EntityId): seq<Application>
    requires ValidWorld(w)
  {
    Merged(apps, provider, AllFound(w, Some(provider), category, target))
  }

  // ---------- One provider at a time ----------

  lemma {:induction false} WithoutStrangers(apps: seq<Application>, provider: EntityId)
    requires forall a :: a in apps ==> a.provider != provider
    ensures Without(apps, provider) == apps
    decreases |apps|
  {
    if apps != [] {
      assert apps[|apps| - 1] in apps;
      WithoutStrangers(apps[..|apps| - 1], provider);
    }
  }

  lemma {:induction false} WithoutOwn(apps: seq<Application>, provider: EntityId)
    requires forall a :: a in apps ==> a.provider == provider
    ensures Without(apps, provider) == []
    decreases |apps|
  {
    if apps != [] {
      assert apps[|apps| - 1] in apps;
      WithoutOwn(apps[..|apps| - 1], provider);
    }
  }

  lemma {:induction false} WithoutConcatenation(xs: seq<Application>, ys: seq<Application>, provider: EntityId)
    ensures Without(xs + ys, provider) == Without(xs, provider) + Without(ys, provider)
    decreases |ys|
  {
    if ys == [] {
      assert xs + ys == xs;
    } else {
      assert (xs + ys)[..|xs + ys| - 1] == xs + ys[..|ys| - 1];
      WithoutConcatenation(xs, ys[..|ys| - 1], provider);
    }
  }

  lemma {:induction false} WithoutKeepsOthers(apps: seq<Application>, provider: EntityId, other: EntityId)
    requires provider != other
    ensures OnlyOf(Without(apps, provider), other) == OnlyOf(apps, other)
    decreases |apps|
  {
    if apps != [] {
      var last := apps[|apps| - 1];
      WithoutKeepsOthers(apps[..|apps| - 1], provider, other);
      OnlyOfAppend(Without(apps[..|apps| - 1], provider), last, other);
    }
  }

  function OnlyOf(apps: seq<Application>, provider: EntityId): seq<Application> {
    if apps == [] then [] else
      var earlier, last := OnlyOf(apps[..|apps| - 1], provider), apps[|apps| - 1];
      if last.provider == provider then earlier + [last] else earlier
  }

  lemma OnlyOfAppend(apps: seq<Application>, last: Application, provider: EntityId)
    ensures OnlyOf(apps + [last], provider) ==
            OnlyOf(apps, provider) + if last.provider == provider then [last] else []
  {
    assert (apps + [last])[..|apps|] == apps;
  }

  lemma {:induction false} OnlyOfConcatenation(xs: seq<Application>, ys: seq<Application>, provider: EntityId)
    ensures OnlyOf(xs + ys, provider) == OnlyOf(xs, provider) + OnlyOf(ys, provider)
    decreases |ys|
  {
    if ys == [] {
      assert xs + ys == xs;
    } else {
      assert (xs + ys)[..|xs + ys| - 1] == xs + ys[..|ys| - 1];
      OnlyOfConcatenation(xs, ys[..|ys| - 1], provider);
    }
  }

  lemma {:induction false} OnlyOwn(apps: seq<Application>, provider: EntityId, asked: EntityId)
    requires forall a :: a in apps ==> a.provider == provider
    ensures OnlyOf(apps, asked) == if asked == provider then apps else []
    decreases |apps|
  {
    if apps != [] {
      assert apps[|apps| - 1] in apps;
      OnlyOwn(apps[..|apps| - 1], provider, asked);
    }
  }

  /** Asking for one provider lists it alone, when it is active. */
  lemma {:induction false} OneProvider(w: World, ids: seq<EntityId>, provider: EntityId)
    requires NoRepeats(ids) && forall x :: x in ids ==> x in w.entities
    ensures Providers(w, Some(provider), ids) ==
      if provider in ids && Provides(w.entities[provider]) then [provider] else []
    decreases |ids|
  {
    if ids != [] {
      var earlier, last := ids[..|ids| - 1], ids[|ids| - 1];
      assert ids == earlier + [last];
      assert last !in earlier;
      OneProvider(w, earlier, provider);
    }
  }

  lemma FoundAlone(w: World, provider: EntityId, category: Category, target: EntityId)
    requires ValidWorld(w)
    ensures AllFound(w, Some(provider), category, target) ==
            if provider in w.entities && Provides(w.entities[provider])
            then Given(w, provider, |w.entities[provider].auras|, category, target) else []
    ensures forall a :: a in AllFound(w, Some(provider), category, target) ==> a.provider == provider
  {
    OneProvider(w, ByPlayOrder(w), provider);
    if provider in w.entities && Provides(w.entities[provider]) {
      FoundOfOne(w, provider, category, target);
    }
  }

  lemma FoundOfOne(w: World, provider: EntityId, category: Category, target: EntityId)
    requires provider in w.entities
    ensures Found(w, [provider], category, target) ==
            Given(w, provider, |w.entities[provider].auras|, category, target)
    ensures forall a :: a in Found(w, [provider], category, target) ==> a.provider == provider
  {
    assert [] + [provider] == [provider];
    FoundNext(w, [], provider, category, target);
  }

  lemma {:induction false} ProvidersDoNotRepeat(w: World, only: Option<EntityId>, ids: seq<EntityId>)
    requires NoRepeats(ids) && forall x :: x in ids ==> x in w.entities
    ensures NoRepeats(Providers(w, only, ids))
    decreases |ids|
  {
    if ids != [] {
      var earlier, last := ids[..|ids| - 1], ids[|ids| - 1];
      assert last !in earlier;
      ProvidersDoNotRepeat(w, only, earlier);
      assert last !in Providers(w, only, earlier);
    }
  }

  lemma {:induction false} ProvidersStaySorted(w: World, only: Option<EntityId>, before: Order, ids: seq<EntityId>)
    requires Sorted(before, ids) && forall x :: x in ids ==> x in w.entities
    ensures Sorted(before, Providers(w, only, ids))
    decreases |ids|
  {
    if ids != [] {
      var earlier, last := ids[..|ids| - 1], ids[|ids| - 1];
      ProvidersStaySorted(w, only, before, earlier);
      forall x | x in Providers(w, only, earlier) ensures before(x, last) {
        var k :| 0 <= k < |earlier| && earlier[k] == x;
        assert before(ids[k], ids[|ids| - 1]);
      }
    }
  }

  /** The refresh of a provider not yet considered adds exactly what a full refresh finds for it. */
  lemma NextProvider(w: World, before: seq<EntityId>, provider: EntityId, category: Category, target: EntityId)
    requires ValidWorld(w) && provider in w.entities && Provides(w.entities[provider]) && provider !in before
    requires forall x :: x in before ==> x in w.entities
    ensures forall x :: x in before + [provider] ==> x in w.entities
    ensures Refreshed(w, provider, Found(w, before, category, target), category, target)
         == Found(w, before + [provider], category, target)
  {
    var earlier := Found(w, before, category, target);
    assert forall a :: a in earlier ==> a.provider != provider;
    WithoutStrangers(earlier, provider);
    FoundAlone(w, provider, category, target);
    FoundNext(w, before, provider, category, target);
  }

  lemma NextRefresh(w: World, before: seq<EntityId>, provider: EntityId, previous: Applications, caches: Applications)
    requires ValidWorld(w) && provider in w.entities && Provides(w.entities[provider]) && provider !in before
    requires Holds(w, before, previous)
    requires forall c: Category, t: EntityId :: Get(caches, c, t) == Refreshed(w, provider, Get(previous, c, t), c, t)
    ensures Holds(w, before + [provider], caches)
  {
    forall c: Category, t: EntityId ensures Get(caches, c, t) == Found(w, before + [provider], c, t) {
      NextProvider(w, before, provider, c, t);
    }
  }

  /** A provider's refresh replaces exactly its own applications, keeps the others in order, and can be repeated. */
  lemma RefreshTouchesOnlyItsProvider(w: World, provider: EntityId, apps: seq<Application>, category: Category,
                                      target: EntityId)
    requires ValidWorld(w)
    ensures var after := Refreshed(w, provider, apps, category, target);
            && OnlyOf(after, provider) == AllFound(w, Some(provider), category, target)
            && (forall other :: other != provider ==> OnlyOf(after, other) == OnlyOf(apps, other))
            && Refreshed(w, provider, after, category, target) == after
  {
    FoundAlone(w, provider, category, target);
    var own := AllFound(w, Some(provider), category, target);
    MergedOwn(apps, provider, own);
    MergedTwice(apps, provider, own);
    forall other | other != provider ensures OnlyOf(Merged(apps, provider, own), other) == OnlyOf(apps, other) {
      MergedOthers(apps, provider, own, other);
    }
  }

  lemma MergedOwn(apps: seq<Application>, provider: EntityId, own: seq<Application>)
    requires forall a :: a in own ==> a.provider == provider
    ensures OnlyOf(Merged(apps, provider, own), provider) == own
  {
    OnlyOfConcatenation(Without(apps, provider), own, provider);
    OnlyOwn(own, provider, provider);
    OnlyOfWithout(apps, provider);
  }

  lemma MergedOthers(apps: seq<Application>, provider: EntityId, own: seq<Application>, other: EntityId)
    requires other != provider && forall a :: a in own ==> a.provider == provider
    ensures OnlyOf(Merged(apps, provider, own), other) == OnlyOf(apps, other)
  {
    OnlyOfConcatenation(Without(apps, provider), own, other);
    OnlyOwn(own, provider, other);
    WithoutKeepsOthers(apps, provider, other);
  }

  lemma MergedTwice(apps: seq<Application>, provider: EntityId, own: seq<Application>)
    requires forall a :: a in own ==> a.provider == provider
    ensures Merged(Merged(apps, provider, own), provider, own) == Merged(apps, provider, own)
  {
    WithoutConcatenation(Without(apps, provider), own, provider);
    WithoutOwn(own, provider);
    NothingOwnIsKept(apps, provider);
    WithoutStrangers(Without(apps, provider), provider);
  }

  lemma {:induction false} NothingOwnIsKept(apps: seq<Application>, provider: EntityId)
    ensures forall a :: a in Without(apps, provider) ==> a.provider != provider
    decreases |apps|
  {
    if apps != [] { NothingOwnIsKept(apps[..|apps| - 1], provider); }
  }

  lemma {:induction false} OnlyOfWithout(apps: seq<Application>, provider: EntityId)
    ensures OnlyOf(Without(apps, provider), provider) == []
    decreases |apps|
  {
    if apps != [] {
      OnlyOfWithout(apps[..|apps| - 1], provider);
      OnlyOfAppend(Without(apps[..|apps| - 1], provider), apps[|apps| - 1], provider);
    }
  }

  // ---------- Exactly what is discovered ----------

  /** An active provider's definition reaches the target and gives it this application. */
  predicate Reaches(w: World, a: Application, category: Category, target: EntityId) {
    && target in w.entities && Receives(w.entities[target])
    && a.provider in w.entities && Provides(w.entities[a.provider])
    && a.definition < |w.entities[a.provider].auras|
    && Gives(w, a.provider, a.definition, a, category, target)
  }

  predicate Gives(w: World, provider: EntityId, j: nat, a: Application, category: Category, target: EntityId)
    requires target in w.entities && provider in w.entities && j < |w.entities[provider].auras|
  {
    var d := w.entities[provider].auras[j];
    && Matches(d.targets, provider, w.entities[provider].controller, target, w.entities[target])
    && a in OfDefinition(provider, j, d, category)
  }

  lemma {:induction false} OthersNameTheirDefinition(provider: EntityId, index: nat, other: seq<OtherModifier>)
    ensures forall a :: a in Others(provider, index, other) ==> a.definition == index
  {
    if other != [] { OthersNameTheirDefinition(provider, index, other[1..]); }
  }

  lemma {:induction false} OfProviderExactly(w: World, provider: EntityId, count: nat, category: Category,
                                             target: EntityId, a: Application)
    requires provider in w.entities && count <= |w.entities[provider].auras| && target in w.entities
    ensures a in OfProvider(w, provider, count, category, target) <==>
            a.definition < count && Gives(w, provider, a.definition, a, category, target)
    decreases count
  {
    if count > 0 {
      OfProviderExactly(w, provider, count - 1, category, target, a);
      OthersNameTheirDefinition(provider, count - 1, w.entities[provider].auras[count - 1].other);
      assert a in OfDefinition(provider, count - 1, w.entities[provider].auras[count - 1], category) ==>
          a.definition == count - 1;
    }
  }

  lemma {:induction false} FoundExactly(w: World, providers: seq<EntityId>, category: Category, target: EntityId,
                                        a: Application)
    requires (forall x :: x in providers ==> x in w.entities) && target in w.entities && Receives(w.entities[target])
    ensures a in Found(w, providers, category, target) <==>
            a.provider in providers && a in OfProvider(w, a.provider, |w.entities[a.provider].auras|, category, target)
    decreases |providers|
  {
    if providers != [] {
      var earlier, last := providers[..|providers| - 1], providers[|providers| - 1];
      assert providers == earlier + [last];
      FoundExactly(w, earlier, category, target, a);
    }
  }

  /** Discovery finds an application for a target exactly when an active provider's definition reaches it. */
  lemma DiscoveredExactly(w: World, category: Category, target: EntityId, a: Application)
    requires ValidWorld(w)
    ensures a in AllFound(w, None, category, target) <==> Reaches(w, a, category, target)
  {
    var providers := Providers(w, None, ByPlayOrder(w));
    if target in w.entities && Receives(w.entities[target]) {
      FoundExactly(w, providers, category, target, a);
      if a.provider in w.entities {
        OfProviderExactly(w, a.provider, |w.entities[a.provider].auras|, category, target, a);
      }
    }
  }

  ghost predicate Precedes(providers: seq<EntityId>, p: EntityId, q: EntityId) {
    exists m, n :: 0 <= m < n < |providers| && providers[m] == p && providers[n] == q
  }

  ghost predicate InOrder(providers: seq<EntityId>, a: Application, b: Application) {
    if a.provider == b.provider then a.definition <= b.definition else Precedes(providers, a.provider, b.provider)
  }

  lemma PrecedesLast(earlier: seq<EntityId>, last: EntityId, p: EntityId)
    requires p in earlier
    ensures Precedes(earlier + [last], p, last)
  {
    var m :| 0 <= m < |earlier| && earlier[m] == p;
    var all := earlier + [last];
    assert all[m] == p && all[|earlier|] == last;
  }

  lemma PrecedesStill(earlier: seq<EntityId>, last: EntityId, p: EntityId, q: EntityId)
    requires Precedes(earlier, p, q)
    ensures Precedes(earlier + [last], p, q)
  {
    var m, n :| 0 <= m < n < |earlier| && earlier[m] == p && earlier[n] == q;
    var all := earlier + [last];
    assert all[m] == p && all[n] == q;
  }

  /** The applications of the next provider go after those of the earlier ones. */
  lemma AppendedInOrder(earlier: seq<EntityId>, last: EntityId, before: seq<Application>, added: seq<Application>,
                        i: nat, j: nat)
    requires i < j < |before| + |added| && last !in earlier
    requires (forall a :: a in before ==> a.provider in earlier) && (forall a :: a in added ==> a.provider == last)
    requires j < |before| ==> InOrder(earlier, before[i], before[j])
    requires i >= |before| ==> InOrder(earlier, added[i - |before|], added[j - |before|])
    ensures InOrder(earlier + [last], (before + added)[i], (before + added)[j])
  {
    if j < |before| {
      if before[i].provider != before[j].provider {
        PrecedesStill(earlier, last, before[i].provider, before[j].provider);
      }
    } else if i >= |before| {
      assert added[i - |before|] in added && added[j - |before|] in added;
    } else {
      assert before[i] in before && added[j - |before|] in added;
      PrecedesLast(earlier, last, before[i].provider);
    }
  }

  lemma NextInOrder(w: World, earlier: seq<EntityId>, last: EntityId, category: Category, target: EntityId, i: nat,
                    j: nat)
    requires last in w.entities && last !in earlier && forall x :: x in earlier + [last] ==> x in w.entities
    requires forall x :: x in earlier ==> x in w.entities
    requires i < j < |Found(w, earlier + [last], category, target)|
    requires var before := Found(w, earlier, category, target);
             j < |before| ==> InOrder(earlier, before[i], before[j])
    ensures var found := Found(w, earlier + [last], category, target);
            InOrder(earlier + [last], found[i], found[j])
  {
    FoundNext(w, earlier, last, category, target);
    var before := Found(w, earlier, category, target);
    var added := Given(w, last, |w.entities[last].auras|, category, target);
    if i >= |before| { GivenInOrder(w, earlier, last, category, target, i - |before|, j - |before|); }
    AppendedInOrder(earlier, last, before, added, i, j);
  }

  lemma {:induction false} FoundAsListed(w: World, providers: seq<EntityId>, category: Category, target: EntityId,
                                        i: nat, j: nat)
    requires (forall x :: x in providers ==> x in w.entities) && NoRepeats(providers)
    requires i < j < |Found(w, providers, category, target)|
    ensures InOrder(providers, Found(w, providers, category, target)[i], Found(w, providers, category, target)[j])
    decreases |providers|
  {
    var earlier, last := providers[..|providers| - 1], providers[|providers| - 1];
    assert providers == earlier + [last];
    if j < |Found(w, earlier, category, target)| { FoundAsListed(w, earlier, category, target, i, j); }
    NextInOrder(w, earlier, last, category, target, i, j);
  }

  lemma GivenInOrder(w: World, earlier: seq<EntityId>, last: EntityId, category: Category, target: EntityId, i: nat,
                     j: nat)
    requires last in w.entities && i < j < |Given(w, last, |w.entities[last].auras|, category, target)|
    ensures var added := Given(w, last, |w.entities[last].auras|, category, target);
            InOrder(earlier, added[i], added[j])
  {
    OfProviderInOrder(w, last, |w.entities[last].auras|, category, target, i, j);
  }

  lemma {:induction false} OfProviderInOrder(w: World, provider: EntityId, count: nat, category: Category,
                                             target: EntityId, i: nat, j: nat)
    requires provider in w.entities && count <= |w.entities[provider].auras| && target in w.entities
    requires i < j < |OfProvider(w, provider, count, category, target)|
    ensures var apps := OfProvider(w, provider, count, category, target);
            apps[i].provider == apps[j].provider && apps[i].definition <= apps[j].definition
    decreases count
  {
    var apps := OfProvider(w, provider, count, category, target);
    var before := OfProvider(w, provider, count - 1, category, target);
    OthersNameTheirDefinition(provider, count - 1, w.entities[provider].auras[count - 1].other);
    assert apps[i] in apps && apps[j] in apps;
    if j < |before| {
      OfProviderInOrder(w, provider, count - 1, category, target, i, j);
    } else if i < |before| {
      assert before[i] in before;
      OfProviderExactly(w, provider, count - 1, category, target, before[i]);
    }
  }

  /** Applications are listed by order of play and id of their providers, and by definition for one provider. */
  lemma FoundInOrder(w: World, only: Option<EntityId>, category: Category, target: EntityId, i: nat, j: nat)
    requires ValidWorld(w) && i < j < |AllFound(w, only, category, target)|
    ensures var a, b := AllFound(w, only, category, target)[i], AllFound(w, only, category, target)[j];
            if a.provider == b.provider then a.definition <= b.definition else PlaysBefore(w, a.provider, b.provider)
  {
    var providers := Providers(w, only, ByPlayOrder(w));
    ProvidersDoNotRepeat(w, only, ByPlayOrder(w));
    ProvidersStaySorted(w, only, PlayOrder(w), ByPlayOrder(w));
    FoundAsListed(w, providers, category, target, i, j);
    var a, b := AllFound(w, only, category, target)[i], AllFound(w, only, category, target)[j];
    if a.provider != b.provider {
      var m, n :| 0 <= m < n < |providers| && providers[m] == a.provider && providers[n] == b.provider;
      assert PlayOrder(w)(providers[m], providers[n]);
    }
  }

  /** What is found does not depend on the order in which the store iterates over its entities. */
  lemma DiscoveryIgnoresTheListing(w: World, v: World, only: Option<EntityId>, category: Category, target: EntityId)
    requires ValidWorld(w) && ValidWorld(v) && w.entities == v.entities
    ensures AllFound(w, only, category, target) == AllFound(v, only, category, target)
  {
    OrdersAreTotal(w);
    assert Sorted(PlayOrder(w), ByPlayOrder(v)) by {
      assert forall x, y :: PlayOrder(w)(x, y) == PlayOrder(v)(x, y);
    }
    SortedListsAreEqual(PlayOrder(w), ByPlayOrder(w), ByPlayOrder(v));
    SameProviders(w, v, only, ByPlayOrder(w));
    SameFound(w, v, Providers(w, only, ByPlayOrder(w)), category, target);
  }

  lemma {:induction false} SameProviders(w: World, v: World, only: Option<EntityId>, ids: seq<EntityId>)
    requires w.entities == v.entities && forall x :: x in ids ==> x in w.entities
    ensures Providers(w, only, ids) == Providers(v, only, ids)
    decreases |ids|
  {
    if ids != [] { SameProviders(w, v, only, ids[..|ids| - 1]); }
  }

  lemma {:induction false} SameGiven(w: World, v: World, provider: EntityId, count: nat, category: Category,
                                     target: EntityId)
    requires w.entities == v.entities && provider in w.entities && target in w.entities
    requires count <= |w.entities[provider].auras|
    ensures OfProvider(w, provider, count, category, target) == OfProvider(v, provider, count, category, target)
    decreases count
  {
    if count > 0 { SameGiven(w, v, provider, count - 1, category, target); }
  }

  lemma {:induction false} SameFound(w: World, v: World, providers: seq<EntityId>, category: Category, target: EntityId)
    requires w.entities == v.entities && forall x :: x in providers ==> x in w.entities
    ensures Found(w, providers, category, target) == Found(v, providers, category, target)
    decreases |providers|
  {
    if providers != [] && target in w.entities && Receives(w.entities[target]) {
      var last := providers[|providers| - 1];
      SameFound(w, v, providers[..|providers| - 1], category, target);
      SameGiven(w, v, last, |w.entities[last].auras|, category, target);
    }
  }
}
