/**
 The card effect language and its static validator.

 An effect program is a list of effects. The validator accepts it for a
 context: the kind of the event whose trigger runs it, if any, and whether it
 is the direct play program of a minion.
 */
module EffectLanguage {
  import opened Outcomes
  import opened Players

  type EntityId = nat
  type EventId = nat
  type SlotId = nat
  type DrawId = nat
  type ResolutionId = nat
  type ChoiceId = nat
  type NativeId = nat

  datatype EntityKind =
    | Player | Hero | Minion | Spell | Weapon | HeroCard | HeroPower | Location | Permanent
    | Dormant | Enchantment | Secret | Quest | Sidequest

  datatype Zone = Deck | Hand | Play | SecretZone | Graveyard | SetAside | RemovedFromGame

  datatype EventKind =
    | SequenceStarted | CardPlayed | CardDrawn | Summoned | AfterPlayAndSummon | AfterPlay
    | ProposedDamage | DamageDealt | ProposedHealing | Healed | AttackDeclared | AfterAttack
    | AfterHeroPower | WeaponEquipped | Death | TurnStarted | TurnEnded

  /** The kinds whose proposed value a trigger may still change. */
  predicate Proposed(kind: EventKind) {
    kind == ProposedDamage || kind == ProposedHealing
  }

  datatype PlayerSelector = Controller | OtherPlayer | Exactly(player: PlayerId)

  datatype Selector =
    | Source | DrawnCard | AttachedEntity | DeclaredTarget | Entity(entity: EntityId)
    | FriendlyMinions | EnemyMinions | AllMinions
    | FriendlyCharacters | EnemyCharacters | AllCharacters
    | InZone(player: PlayerSelector, zone: Zone)
    | Random(among: Selector)

  datatype TransformKind = SpellTransform | NonSpell | PlayedSelf
  datatype DrawPolicy = RequireCard | RunWithoutCard
  datatype ValueOperation = Replace | Add | Multiply
  datatype SourceEligibility = MustExist | MustRemainInEligibleZone | RememberedSource

  datatype Card = Card(kind: EntityKind, durability: int, effects: seq<Effect>, triggers: seq<Trigger>)

  datatype Trigger = Trigger(event: EventKind, eligibleZones: seq<Zone>, eligibility: SourceEligibility,
                             program: seq<Effect>)

  datatype HeroHealth = Preserve | Set(maximum: int, current: int)

  datatype HeroReplacement =
    HeroReplacement(hero: Card, heroPower: Card, health: HeroHealth, weapon: Option<Card>)

  datatype EffectOption = EffectOption(id: ChoiceId, effects: seq<Effect>)

  /** Attach stands for the stat, keyword, cost and continuous-effect attachments. */
  datatype Effect =
    | Choose(id: ChoiceId, player: PlayerSelector, options: seq<EffectOption>)
    | DealDamage(targets: Selector)
    | Heal(targets: Selector)
    | ModifyEventValue(operation: ValueOperation)
    | Destroy(targets: Selector)
    | Draw(player: PlayerSelector, count: nat)
    | DrawThen(player: PlayerSelector, effects: seq<Effect>, policy: DrawPolicy)
    | Move(targets: Selector, player: PlayerSelector, zone: Zone)
    | GainResource(player: PlayerSelector, amount: int)
    | ScheduleExtraTurns(player: PlayerSelector, count: nat)
    | ReplaceHero(player: PlayerSelector, replacement: HeroReplacement)
    | Summon(player: PlayerSelector, card: Card)
    | Attach(targets: Selector)
    | AttachTriggers(targets: Selector, triggers: seq<Trigger>)
    | Silence(targets: Selector)
    | Transform(targets: Selector, card: Card, kind: TransformKind)
    | Copy(targets: Selector, player: PlayerSelector, zone: Zone)
    | Native(native: NativeId)
    | Sequence(effects: seq<Effect>)

  datatype ProgramError =
    | NativeNotRegistered(native: NativeId)
    | NoModifiableEventValue
    | PlayedSelfMisplaced
    | ChoiceNeedsUniqueOptions
    | WeaponNeedsDurability
    | InvalidHeroReplacement
    | InvalidTriggerEnchantment

  predicate UniqueOptions(options: seq<EffectOption>) {
    && options != []
    && forall i, j :: 0 <= i < j < |options| ==> options[i].id != options[j].id
  }

  /** The first error of the effects in order, or None when the program is accepted. */
  function CheckProgram(natives: set<NativeId>, effects: seq<Effect>, event: Option<EventKind>, playedSelf: bool)
    : Option<ProgramError>
    decreases effects
  {
    if effects == [] then None else
      match CheckEffect(natives, effects[0], event, playedSelf)
      case Some(error) => Some(error)
      case None => CheckProgram(natives, effects[1..], event, playedSelf)
  }

  function CheckEffect(natives: set<NativeId>, effect: Effect, event: Option<EventKind>, playedSelf: bool)
    : Option<ProgramError>
    decreases effect
  {
    match effect
    case Native(id) => if id in natives then None else Some(NativeNotRegistered(id))
    case ModifyEventValue(_) =>
      if event.Some? && Proposed(event.value) then None else Some(NoModifiableEventValue)
    case Choose(_, _, options) =>
      if UniqueOptions(options) then CheckOptions(natives, options) else Some(ChoiceNeedsUniqueOptions)
    case DrawThen(_, nested, _) => CheckProgram(natives, nested, None, false)
    case Sequence(nested) => CheckProgram(natives, nested, event, playedSelf)
    case Summon(_, card) => CheckCard(natives, card)
    case Transform(targets, card, kind) =>
      if kind == PlayedSelf && (!playedSelf || targets != Source) then Some(PlayedSelfMisplaced)
      else CheckCard(natives, card)
    case ReplaceHero(_, replacement) => CheckReplacement(natives, replacement)
    case AttachTriggers(_, triggers) => CheckEnchantment(natives, triggers)
    case _ => None
  }

  function CheckOptions(natives: set<NativeId>, options: seq<EffectOption>): Option<ProgramError>
    decreases options
  {
    if options == [] then None else
      match CheckProgram(natives, options[0].effects, None, false)
      case Some(error) => Some(error)
      case None => CheckOptions(natives, options[1..])
  }

  function CheckCard(natives: set<NativeId>, card: Card): Option<ProgramError>
    decreases card
  {
    if card.kind == Weapon && card.durability <= 0 then Some(WeaponNeedsDurability) else
      match CheckProgram(natives, card.effects, None, card.kind == Minion)
      case Some(error) => Some(error)
      case None => CheckTriggers(natives, card.triggers)
  }

  function CheckTriggers(natives: set<NativeId>, triggers: seq<Trigger>): Option<ProgramError>
    decreases triggers
  {
    if triggers == [] then None else
      match CheckProgram(natives, triggers[0].program, Some(triggers[0].event), false)
      case Some(error) => Some(error)
      case None => CheckTriggers(natives, triggers[1..])
  }

  function CheckEnchantment(natives: set<NativeId>, triggers: seq<Trigger>): Option<ProgramError>
    decreases triggers, 1
  {
    if triggers == [] then Some(InvalidTriggerEnchantment) else CheckAttached(natives, triggers)
  }

  function CheckAttached(natives: set<NativeId>, triggers: seq<Trigger>): Option<ProgramError>
    decreases triggers, 0
  {
    if triggers == [] then None else
      var t := triggers[0];
      if t.event == Death || t.eligibleZones != [Play] || t.eligibility != MustRemainInEligibleZone then
        Some(InvalidTriggerEnchantment)
      else
        match CheckProgram(natives, t.program, Some(t.event), false)
        case Some(error) => Some(error)
        case None => CheckAttached(natives, triggers[1..])
  }

  function CheckReplacement(natives: set<NativeId>, r: HeroReplacement): Option<ProgramError>
    decreases r
  {
    if r.hero.kind != Hero || r.heroPower.kind != HeroPower || (r.weapon.Some? && r.weapon.value.kind != Weapon)
       || (r.health.Set? && (r.health.maximum <= 0 || r.health.current < 0 || r.health.current > r.health.maximum))
    then Some(InvalidHeroReplacement) else
      match CheckCard(natives, r.hero)
      case Some(error) => Some(error)
      case None =>
        match CheckCard(natives, r.heroPower)
        case Some(error) => Some(error)
        case None => if r.weapon.Some? then CheckCard(natives, r.weapon.value) else None
  }

  /** Whether playing the minion needs a completion scope. */
  predicate ContainsPlayedSelf(effects: seq<Effect>) {
    effects != [] && (PlaysSelf(effects[0]) || ContainsPlayedSelf(effects[1..]))
  }

  predicate PlaysSelf(effect: Effect) {
    match effect
    case Transform(Source, _, PlayedSelf) => true
    case Sequence(nested) => ContainsPlayedSelf(nested)
    case _ => false
  }

  // ---------- The validator, effect by effect ----------

  /** Accepted means that every effect is accepted on its own. */
  lemma {:induction false} AcceptedMeansEveryEffect(
      natives: set<NativeId>, effects: seq<Effect>, event: Option<EventKind>, playedSelf: bool)
    ensures CheckProgram(natives, effects, event, playedSelf).None? <==>
            (forall i :: 0 <= i < |effects| ==> CheckEffect(natives, effects[i], event, playedSelf).None?)
  {
    if effects != [] {
      AcceptedMeansEveryEffect(natives, effects[1..], event, playedSelf);
      assert forall i :: 1 <= i < |effects| ==> effects[i] == effects[1..][i - 1];
      assert forall i :: 0 <= i < |effects| - 1 ==> effects[1..][i] == effects[i + 1];
    }
  }

  lemma {:induction false} AcceptedOptions(natives: set<NativeId>, options: seq<EffectOption>)
    ensures CheckOptions(natives, options).None? <==>
            (forall i :: 0 <= i < |options| ==> CheckProgram(natives, options[i].effects, None, false).None?)
  {
    if options != [] {
      AcceptedOptions(natives, options[1..]);
      assert forall i :: 1 <= i < |options| ==> options[i] == options[1..][i - 1];
      assert forall i :: 0 <= i < |options| - 1 ==> options[1..][i] == options[i + 1];
    }
  }

  lemma {:induction false} AcceptedTriggers(natives: set<NativeId>, triggers: seq<Trigger>)
    ensures CheckTriggers(natives, triggers).None? <==>
            (forall i :: 0 <= i < |triggers| ==>
              CheckProgram(natives, triggers[i].program, Some(triggers[i].event), false).None?)
  {
    if triggers != [] {
      AcceptedTriggers(natives, triggers[1..]);
      assert forall i :: 1 <= i < |triggers| ==> triggers[i] == triggers[1..][i - 1];
      assert forall i :: 0 <= i < |triggers| - 1 ==> triggers[1..][i] == triggers[i + 1];
    }
  }

  /** An accepted trigger enchantment carries accepted triggers. */
  lemma {:induction false} AttachedTriggersAreAccepted(natives: set<NativeId>, triggers: seq<Trigger>)
    requires CheckAttached(natives, triggers).None?
    ensures CheckTriggers(natives, triggers).None?
  {
    if triggers != [] {
      AttachedTriggersAreAccepted(natives, triggers[1..]);
    }
  }

  /**
   The minion play context is exactly one permission wider than the ordinary
   one: an ordinary program is a play program that never transforms itself.
   */
  lemma {:induction false} PlayContextAddsOnlyPlayedSelf(
      natives: set<NativeId>, effects: seq<Effect>, event: Option<EventKind>)
    ensures CheckProgram(natives, effects, event, false).None? <==>
            CheckProgram(natives, effects, event, true).None? && !ContainsPlayedSelf(effects)
    decreases effects
  {
    if effects != [] {
      EffectAddsOnlyPlayedSelf(natives, effects[0], event);
      PlayContextAddsOnlyPlayedSelf(natives, effects[1..], event);
    }
  }

  lemma {:induction false} EffectAddsOnlyPlayedSelf(natives: set<NativeId>, effect: Effect, event: Option<EventKind>)
    ensures CheckEffect(natives, effect, event, false).None? <==>
            CheckEffect(natives, effect, event, true).None? && !PlaysSelf(effect)
    decreases effect
  {
    if effect.Sequence? { PlayContextAddsOnlyPlayedSelf(natives, effect.effects, event); }
  }
}
