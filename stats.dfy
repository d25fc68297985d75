/**
 * The stat inputs of the calculator form: the sixteen `StatsValue`
 * variants, their display labels, and the single-field update that
 * `apply_stat!` performs on the active player.
 */
module Stats {
  import opened Wrappers
  import opened Numeric
  import opened RealtimeData
  import opened CalculatorModel

  /** A stat input, carrying the text shown in its box. */
  datatype StatsValue =
    | Level(v: string)
    | AbilityPower(v: string)
    | Armor(v: string)
    | ArmorPenetrationFlat(v: string)
    | ArmorPenetrationPercent(v: string)
    | AttackDamage(v: string)
    | AttackSpeed(v: string)
    | CritChance(v: string)
    | CritDamage(v: string)
    | CurrentHealth(v: string)
    | MaxHealth(v: string)
    | MagicPenetrationFlat(v: string)
    | MagicPenetrationPercent(v: string)
    | MagicResist(v: string)
    | MaxMana(v: string)
    | CurrentMana(v: string)

  /** The fixed label `get_labels` shows for the variant of `s`. */
  function Label(s: StatsValue): string {
    match s
    case Level(_) => "Level"
    case CurrentHealth(_) => "Health"
    case AbilityPower(_) => "Ability Power"
    case Armor(_) => "Armor"
    case ArmorPenetrationFlat(_) => "Armor Pen"
    case ArmorPenetrationPercent(_) => "% Armor Pen"
    case AttackDamage(_) => "Attack Damage"
    case AttackSpeed(_) => "Attack Speed"
    case CritChance(_) => "Crit Chance"
    case CritDamage(_) => "Crit Damage"
    case MaxHealth(_) => "Max Health"
    case MagicPenetrationFlat(_) => "Magic Pen"
    case MagicPenetrationPercent(_) => "% Magic Pen"
    case MagicResist(_) => "Magic Resist"
    case MaxMana(_) => "Max Mana"
    case CurrentMana(_) => "Current Mana"
  }

  /** `get_labels`: the label of the variant and the carried text, unchanged. */
  function GetLabels(s: StatsValue): (r: (string, string))
    ensures r.1 == s.v
  {
    (Label(s), s.v)
  }

  /** Which of the sixteen variants `s` is, as 0..15 in declaration order. */
  function Kind(s: StatsValue): (k: nat)
    ensures k < 16
  {
    match s
    case Level(_) => 0
    case AbilityPower(_) => 1
    case Armor(_) => 2
    case ArmorPenetrationFlat(_) => 3
    case ArmorPenetrationPercent(_) => 4
    case AttackDamage(_) => 5
    case AttackSpeed(_) => 6
    case CritChance(_) => 7
    case CritDamage(_) => 8
    case CurrentHealth(_) => 9
    case MaxHealth(_) => 10
    case MagicPenetrationFlat(_) => 11
    case MagicPenetrationPercent(_) => 12
    case MagicResist(_) => 13
    case MaxMana(_) => 14
    case CurrentMana(_) => 15
  }

  /** `Kind` names the variant and nothing else: two values have the same kind exactly when they differ at most in their text. */
  lemma KindIsTheVariant(s: StatsValue, t: StatsValue)
    ensures Kind(s) == Kind(t) <==> s.(v := t.v) == t
  {
  }

  /**
   * The label depends on the variant only, and no two variants share one:
   * in particular `CurrentHealth` is "Health" and `MaxHealth` is "Max Health".
   */
  lemma LabelsIdentifyVariants(s: StatsValue, t: StatsValue)
    ensures GetLabels(s).0 == GetLabels(t).0 <==> Kind(s) == Kind(t)
    ensures GetLabels(CurrentHealth(s.v)) == ("Health", s.v)
    ensures GetLabels(MaxHealth(s.v)) == ("Max Health", s.v)
  {
    var a, b := GetLabels(s).0, GetLabels(t).0;
    if Kind(s) != Kind(t) {
      assert |a| != |b| || a[0] != b[0] || a[1] != b[1] || a[|a| - 1] != b[|b| - 1] || a[2] != b[2]
        || (|a| > 6 && |b| > 6 && a[6] != b[6]) || (|a| > 7 && |b| > 7 && a[7] != b[7]);
    }
  }

  /** The value of the field of `p` that the variant of `s` edits (`level` as a real). */
  function ReadStat(p: ActivePlayer, s: StatsValue): real {
    var c := p.championStats;
    match s
    case Level(_) => p.level as real
    case AbilityPower(_) => c.abilityPower
    case Armor(_) => c.armor
    case ArmorPenetrationFlat(_) => c.armorPenetrationFlat
    case ArmorPenetrationPercent(_) => c.armorPenetrationPercent
    case AttackDamage(_) => c.attackDamage
    case AttackSpeed(_) => c.attackSpeed
    case CritChance(_) => c.critChance
    case CritDamage(_) => c.critDamage
    case CurrentHealth(_) => c.currentHealth
    case MaxHealth(_) => c.maxHealth
    case MagicPenetrationFlat(_) => c.magicPenetrationFlat
    case MagicPenetrationPercent(_) => c.magicPenetrationPercent
    case MagicResist(_) => c.magicResist
    case MaxMana(_) => c.maxMana
    case CurrentMana(_) => c.currentMana
  }

  /** `apply_stat!(state, s, x)`: `level` takes `x as usize`, every other variant its own stat field. */
  function ApplyStat(p: ActivePlayer, s: StatsValue, x: real): ActivePlayer {
    var c := p.championStats;
    match s
    case Level(_) => p.(level := RealToUsize(x))
    case AbilityPower(_) => p.(championStats := c.(abilityPower := x))
    case Armor(_) => p.(championStats := c.(armor := x))
    case ArmorPenetrationFlat(_) => p.(championStats := c.(armorPenetrationFlat := x))
    case ArmorPenetrationPercent(_) => p.(championStats := c.(armorPenetrationPercent := x))
    case AttackDamage(_) => p.(championStats := c.(attackDamage := x))
    case AttackSpeed(_) => p.(championStats := c.(attackSpeed := x))
    case CritChance(_) => p.(championStats := c.(critChance := x))
    case CritDamage(_) => p.(championStats := c.(critDamage := x))
    case CurrentHealth(_) => p.(championStats := c.(currentHealth := x))
    case MaxHealth(_) => p.(championStats := c.(maxHealth := x))
    case MagicPenetrationFlat(_) => p.(championStats := c.(magicPenetrationFlat := x))
    case MagicPenetrationPercent(_) => p.(championStats := c.(magicPenetrationPercent := x))
    case MagicResist(_) => p.(championStats := c.(magicResist := x))
    case MaxMana(_) => p.(championStats := c.(maxMana := x))
    case CurrentMana(_) => p.(championStats := c.(currentMana := x))
  }

  /** The value `apply_stat!` stores for `x` in the field of `s`. */
  function Stored(s: StatsValue, x: real): real {
    if s.Level? then RealToUsize(x) as real else x
  }

  /**
   * `apply_stat!` writes exactly one field: the one `s` names reads back as
   * the stored value, every stat of another variant reads back unchanged, and
   * nothing outside the level and the stat block moves.
   */
  lemma ApplyStatWritesOneField(p: ActivePlayer, s: StatsValue, x: real)
    ensures ReadStat(ApplyStat(p, s, x), s) == Stored(s, x)
    ensures forall t :: Kind(t) != Kind(s) ==> ReadStat(ApplyStat(p, s, x), t) == ReadStat(p, t)
    ensures var q := ApplyStat(p, s, x);
      q.championId == p.championId && q.abilities == p.abilities && q.items == p.items &&
      q.runes == p.runes && q.stacks == p.stacks && q.championStats.attackRange == p.championStats.attackRange
    ensures s.Level? ==> ApplyStat(p, s, x).championStats == p.championStats
  {
  }

  /** Applying the same variant and value twice is applying it once. */
  lemma ApplyStatIdempotent(p: ActivePlayer, s: StatsValue, x: real)
    ensures ApplyStat(ApplyStat(p, s, x), s, x) == ApplyStat(p, s, x)
  {
  }

  /** `MaxHealth` and `CurrentHealth` edit different fields. */
  lemma HealthFieldsAreDistinct(p: ActivePlayer, x: real, y: string, z: string)
    ensures ReadStat(ApplyStat(p, MaxHealth(y), x), CurrentHealth(z)) == p.championStats.currentHealth
    ensures ReadStat(ApplyStat(p, CurrentHealth(y), x), MaxHealth(z)) == p.championStats.maxHealth
  {
  }

  /** The stat-input callback: `apply_stat!` only when the text parsed as a number (`parsed`), else the state as it was. */
  function ApplyParsedStat(p: ActivePlayer, s: StatsValue, parsed: Option<real>): (q: ActivePlayer)
    ensures parsed.None? ==> q == p
    ensures parsed.Some? ==> ReadStat(q, s) == Stored(s, parsed.value)
    ensures parsed.Some? ==> forall t :: Kind(t) != Kind(s) ==> ReadStat(q, t) == ReadStat(p, t)
  {
    if parsed.Some? then
      ApplyStatWritesOneField(p, s, parsed.value);
      ApplyStat(p, s, parsed.value)
    else p
  }
}
