/**
 Recalculation of a character's statistics (recalculate_stats in
 hearthstone_simulator/simulator/enchantment.rs) and what any run of
 recalculations does to damage and to mortality.
 */
module HealthLaw {
  import opened Outcomes

  const I32_MAX := 0x7FFF_FFFF

  datatype StatModifier = StatModifier(attack: int, health: int)
  datatype CurrentStats = CurrentStats(attack: int, maximumHealth: int)

  function AtLeastZero(x: int): nat {
    if x < 0 then 0 else x
  }

  /** Subtraction of 32-bit integers that stops at the ends of their range. */
  function SaturatingSub(a: int, b: int): int {
    if a - b > I32_MAX then I32_MAX else if a - b < -I32_MAX - 1 then -I32_MAX - 1 else a - b
  }

  predicate IsI32(x: int) {
    -I32_MAX - 1 <= x <= I32_MAX
  }

  function Sum(amounts: seq<int>): int {
    if amounts == [] then 0 else Sum(amounts[..|amounts| - 1]) + amounts[|amounts| - 1]
  }

  function SumAttack(modifiers: seq<StatModifier>): int {
    if modifiers == [] then 0 else SumAttack(modifiers[..|modifiers| - 1]) + modifiers[|modifiers| - 1].attack
  }

  function SumHealth(modifiers: seq<StatModifier>): int {
    if modifiers == [] then 0 else SumHealth(modifiers[..|modifiers| - 1]) + modifiers[|modifiers| - 1].health
  }

  /** The damage left when the maximum goes from previous to maximum: remaining health is kept as far as it fits. */
  function Settle(previous: int, maximum: int, damage: int): int {
    if maximum < previous then AtLeastZero(SaturatingSub(maximum, SaturatingSub(previous, damage))) else damage
  }

  class Character {
    var base: Option<StatModifier>
    var modifiers: seq<StatModifier>
    var attackAuras: seq<int>
    var healthAuras: seq<int>
    var current: Option<CurrentStats>
    var damage: Option<int>

    /** The statistics that the base, the modifiers in order of play and the aura caches add up to. */
    ghost function Target(b: StatModifier): CurrentStats
      reads this
    {
      CurrentStats(b.attack + SumAttack(modifiers) + Sum(attackAuras),
                   AtLeastZero(b.health + SumHealth(modifiers) + Sum(healthAuras)))
    }

    method Recalculate()
      modifies this`current, this`damage
      ensures base.None? ==> current == old(current) && damage == old(damage)
      ensures base.Some? ==> current == Some(Target(base.value))
      ensures base.Some? && old(current).Some? && old(damage).Some? ==>
        damage == Some(Settle(old(current).value.maximumHealth, Target(base.value).maximumHealth, old(damage).value))
      ensures old(current).None? || old(damage).None? ==> damage == old(damage)
    {
      if base.None? { return; }
      var attack, health := base.value.attack, base.value.health;
      for i := 0 to |modifiers|
        invariant attack == base.value.attack + SumAttack(modifiers[..i])
        invariant health == base.value.health + SumHealth(modifiers[..i])
      {
        assert modifiers[..i + 1][..i] == modifiers[..i];
        attack, health := attack + modifiers[i].attack, health + modifiers[i].health;
      }
      assert modifiers[..|modifiers|] == modifiers;
      for i := 0 to |attackAuras|
        invariant attack == base.value.attack + SumAttack(modifiers) + Sum(attackAuras[..i])
      {
        assert attackAuras[..i + 1][..i] == attackAuras[..i];
        attack := attack + attackAuras[i];
      }
      assert attackAuras[..|attackAuras|] == attackAuras;
      for i := 0 to |healthAuras|
        invariant health == base.value.health + SumHealth(modifiers) + Sum(healthAuras[..i])
      {
        assert healthAuras[..i + 1][..i] == healthAuras[..i];
        health := health + healthAuras[i];
      }
      assert healthAuras[..|healthAuras|] == healthAuras;
      var maximum := AtLeastZero(health);
      if current.Some? && damage.Some? && maximum < current.value.maximumHealth {
        var remaining := SaturatingSub(current.value.maximumHealth, damage.value);
        damage := Some(AtLeastZero(SaturatingSub(maximum, remaining)));
      }
      current := Some(CurrentStats(attack, maximum));
    }
  }

  // ---------- Runs of recalculations ----------

  /** Maxima and damage are 32-bit, and neither is negative. */
  predicate ValidRun(first: int, maxima: seq<int>, damage: int) {
    && 0 <= damage && IsI32(damage) && 0 <= first && IsI32(first)
    && forall m :: m in maxima ==> 0 <= m && IsI32(m)
  }

  /** The damage after recalculations that give these maxima one after the other. */
  function DamageAfter(first: int, maxima: seq<int>, damage: int): int
    decreases |maxima|
  {
    if maxima == [] then damage
    else DamageAfter(maxima[0], maxima[1..], Settle(first, maxima[0], damage))
  }

  /** All the drops of the maximum added up; rises do not count. */
  function Drops(first: int, maxima: seq<int>): nat
    decreases |maxima|
  {
    if maxima == [] then 0 else AtLeastZero(first - maxima[0]) + Drops(maxima[0], maxima[1..])
  }

  /** The saturating subtractions never saturate, so a drop of the maximum takes away just that much damage. */
  lemma SettleTakesTheDrop(previous: int, maximum: int, damage: int)
    requires ValidRun(previous, [maximum], damage)
    ensures Settle(previous, maximum, damage) == AtLeastZero(damage - AtLeastZero(previous - maximum))
  {
    assert maximum in [maximum];
  }

  /** The order and the size of single steps do not matter: only the total of the drops does. */
  lemma {:induction false} DamageFallsByTheDrops(first: int, maxima: seq<int>, damage: int)
    requires ValidRun(first, maxima, damage)
    ensures DamageAfter(first, maxima, damage) == AtLeastZero(damage - Drops(first, maxima))
    decreases |maxima|
  {
    if maxima != [] {
      assert maxima[0] in maxima;
      SettleTakesTheDrop(first, maxima[0], damage);
      DamageFallsByTheDrops(maxima[0], maxima[1..], Settle(first, maxima[0], damage));
    }
  }

  /** Recalculation never adds damage, however often it happens. */
  lemma RecalculationNeverHurts(first: int, maxima: seq<int>, damage: int)
    requires ValidRun(first, maxima, damage)
    ensures 0 <= DamageAfter(first, maxima, damage) <= damage
  {
    DamageFallsByTheDrops(first, maxima, damage);
  }

  /** A character living at the start is mortally wounded after a run exactly when the run ends at a maximum of zero. */
  lemma {:induction false} LivingUnlessTheMaximumIsZero(first: int, maxima: seq<int>, damage: int)
    requires ValidRun(first, maxima, damage) && damage < first && maxima != []
    ensures DamageAfter(first, maxima, damage) >= maxima[|maxima| - 1] <==> maxima[|maxima| - 1] == 0
    decreases |maxima|
  {
    assert maxima[0] in maxima;
    SettleTakesTheDrop(first, maxima[0], damage);
    RestKeepsLiving(maxima[0], maxima[1..], Settle(first, maxima[0], damage));
  }

  lemma {:induction false} RestKeepsLiving(first: int, maxima: seq<int>, damage: int)
    requires ValidRun(first, maxima, damage) && (damage < first || damage == 0)
    ensures var last := if maxima == [] then first else maxima[|maxima| - 1];
            DamageAfter(first, maxima, damage) >= last <==> last == 0
    decreases |maxima|
  {
    if maxima != [] {
      assert maxima[0] in maxima;
      SettleTakesTheDrop(first, maxima[0], damage);
      RestKeepsLiving(maxima[0], maxima[1..], Settle(first, maxima[0], damage));
    }
  }

  /** A passing change of the maximum, up or down, heals a damaged character; an undamaged one keeps its health. */
  lemma PassingChangeHeals(maximum: int, passing: int, damage: int)
    requires ValidRun(maximum, [passing, maximum], damage)
    ensures DamageAfter(maximum, [passing, maximum], damage) < damage <==> passing != maximum && damage > 0
  {
    var maxima := [passing, maximum];
    assert passing in maxima;
    DamageFallsByTheDrops(maximum, maxima, damage);
    assert maxima[1..] == [maximum] && [maximum][1..] == [];
    assert Drops(passing, [maximum]) == AtLeastZero(passing - maximum) + Drops(maximum, []);
  }
}
