/** The rules tables of the character sheet (`getSpellcastingData`) and the
    numbers derived from ability scores, level and class. Everything here is a
    pure function of its inputs. */
module Rules {
  import opened Wrappers

  /** The values of the class selector. `Unlisted` is any other value,
      including an empty selection. */
  datatype CharClass =
    | Barbarian | Bard | Cleric | Druid | Fighter | Monk | Paladin
    | Ranger | Rogue | Sorcerer | Warlock | Wizard | Unlisted

  datatype Ability = Strength | Dexterity | Constitution | Intelligence | Wisdom | Charisma

  /** The six ability scores, already coerced to integers. */
  datatype Scores = Scores(
    strength: int, dexterity: int, constitution: int,
    intelligence: int, wisdom: int, charisma: int)
  {
    function Of(a: Ability): int
    {
      match a
      case Strength => strength
      case Dexterity => dexterity
      case Constitution => constitution
      case Intelligence => intelligence
      case Wisdom => wisdom
      case Charisma => charisma
    }
  }

  datatype PrepMethod = Known | Prepared

  // ---------------------------------------------------------------------
  // Per-class tables
  // ---------------------------------------------------------------------

  function SpellcastingAbility(c: CharClass): Option<Ability>
  {
    match c
    case Bard => Some(Charisma)
    case Cleric => Some(Wisdom)
    case Druid => Some(Wisdom)
    case Paladin => Some(Charisma)
    case Ranger => Some(Wisdom)
    case Sorcerer => Some(Charisma)
    case Warlock => Some(Charisma)
    case Wizard => Some(Intelligence)
    case _ => None
  }

  function PreparationMethod(c: CharClass): Option<PrepMethod>
  {
    match c
    case Bard => Some(Known)
    case Cleric => Some(Prepared)
    case Druid => Some(Prepared)
    case Paladin => Some(Prepared)
    case Ranger => Some(Known)
    case Sorcerer => Some(Known)
    case Warlock => Some(Known)
    case Wizard => Some(Prepared)
    case _ => None
  }

  /** The classes that get a spells screen. Exactly the classes that have both
      a spellcasting ability and a preparation method. */
  predicate IsSpellcaster(c: CharClass)
    ensures IsSpellcaster(c) <==> SpellcastingAbility(c).Some? && PreparationMethod(c).Some?
  {
    c in {Bard, Cleric, Druid, Paladin, Ranger, Sorcerer, Warlock, Wizard}
  }

  predicate IsFullCaster(c: CharClass) { c in {Bard, Cleric, Druid, Sorcerer, Wizard} }
  predicate IsHalfCaster(c: CharClass) { c in {Paladin, Ranger} }

  /** Slots per spell level 1..9 for full casters, keyed by character level. */
  function FullCasterRow(level: int): Option<seq<nat>>
  {
    match level
    case 1 => Some([2, 0, 0, 0, 0, 0, 0, 0, 0])
    case 2 => Some([3, 0, 0, 0, 0, 0, 0, 0, 0])
    case 3 => Some([4, 2, 0, 0, 0, 0, 0, 0, 0])
    case 4 => Some([4, 3, 0, 0, 0, 0, 0, 0, 0])
    case 5 => Some([4, 3, 2, 0, 0, 0, 0, 0, 0])
    case 6 => Some([4, 3, 3, 0, 0, 0, 0, 0, 0])
    case 7 => Some([4, 3, 3, 1, 0, 0, 0, 0, 0])
    case 8 => Some([4, 3, 3, 2, 0, 0, 0, 0, 0])
    case 9 => Some([4, 3, 3, 3, 1, 0, 0, 0, 0])
    case 10 => Some([4, 3, 3, 3, 2, 0, 0, 0, 0])
    case 11 => Some([4, 3, 3, 3, 2, 1, 0, 0, 0])
    case 12 => Some([4, 3, 3, 3, 2, 1, 0, 0, 0])
    case 13 => Some([4, 3, 3, 3, 2, 1, 1, 0, 0])
    case 14 => Some([4, 3, 3, 3, 2, 1, 1, 0, 0])
    case 15 => Some([4, 3, 3, 3, 2, 1, 1, 1, 0])
    case 16 => Some([4, 3, 3, 3, 2, 1, 1, 1, 0])
    case 17 => Some([4, 3, 3, 3, 2, 1, 1, 1, 1])
    case 18 => Some([4, 3, 3, 3, 3, 1, 1, 1, 1])
    case 19 => Some([4, 3, 3, 3, 3, 2, 1, 1, 1])
    case 20 => Some([4, 3, 3, 3, 3, 2, 2, 1, 1])
    case _ => None
  }

  /** Slots per spell level 1..5 for paladins and rangers. */
  function HalfCasterRow(level: int): Option<seq<nat>>
  {
    match level
    case 1 => Some([0, 0, 0, 0, 0])
    case 2 => Some([2, 0, 0, 0, 0])
    case 3 => Some([3, 0, 0, 0, 0])
    case 4 => Some([3, 0, 0, 0, 0])
    case 5 => Some([4, 2, 0, 0, 0])
    case 6 => Some([4, 2, 0, 0, 0])
    case 7 => Some([4, 3, 0, 0, 0])
    case 8 => Some([4, 3, 0, 0, 0])
    case 9 => Some([4, 3, 2, 0, 0])
    case 10 => Some([4, 3, 2, 0, 0])
    case 11 => Some([4, 3, 3, 0, 0])
    case 12 => Some([4, 3, 3, 0, 0])
    case 13 => Some([4, 3, 3, 1, 0])
    case 14 => Some([4, 3, 3, 1, 0])
    case 15 => Some([4, 3, 3, 2, 0])
    case 16 => Some([4, 3, 3, 2, 0])
    case 17 => Some([4, 3, 3, 3, 1])
    case 18 => Some([4, 3, 3, 3, 1])
    case 19 => Some([4, 3, 3, 3, 2])
    case 20 => Some([4, 3, 3, 3, 2])
    case _ => None
  }

  /** Pact-magic slots per spell level 1..5, as the sheet defines them. */
  function WarlockRow(level: int): Option<seq<nat>>
  {
    match level
    case 1 => Some([1, 0, 0, 0, 0])
    case 2 => Some([2, 0, 0, 0, 0])
    case 3 => Some([0, 2, 0, 0, 0])
    case 4 => Some([0, 2, 0, 0, 0])
    case 5 => Some([0, 0, 2, 0, 0])
    case 6 => Some([0, 0, 2, 0, 0])
    case 7 => Some([0, 0, 2, 0, 0])
    case 8 => Some([0, 0, 2, 0, 0])
    case 9 => Some([0, 0, 2, 0, 0])
    case 10 => Some([0, 0, 2, 0, 0])
    case 11 => Some([0, 0, 0, 3, 0])
    case 12 => Some([0, 0, 0, 3, 0])
    case 13 => Some([0, 0, 0, 3, 0])
    case 14 => Some([0, 0, 0, 3, 0])
    case 15 => Some([0, 0, 0, 3, 0])
    case 16 => Some([0, 0, 0, 3, 0])
    case 17 => Some([0, 0, 0, 0, 4])
    case 18 => Some([0, 0, 0, 0, 4])
    case 19 => Some([0, 0, 0, 0, 4])
    case 20 => Some([0, 0, 0, 0, 4])
    case _ => None
  }

  /** A row of `width` zeros: the fallback for a level missing from a table. */
  function Zeros(width: nat): (row: seq<nat>)
    ensures |row| == width && forall i :: 0 <= i < width ==> row[i] == 0
  {
    seq(width, _ => 0)
  }

  /** A table row, or `Zeros(width)` when the table has no such level. */
  function RowOr(row: Option<seq<nat>>, width: nat): seq<nat>
  {
    match row
    case Some(r) => r
    case None => Zeros(width)
  }

  /** The slot row selected by caster type (index `i` holds the slots of
      spell level `i + 1`); a class outside the three groups gets no row. */
  function SlotRow(c: CharClass, level: int): (row: seq<nat>)
    ensures c == Warlock || IsHalfCaster(c) ==> |row| == 5
    ensures IsFullCaster(c) ==> |row| == 9
    ensures !IsSpellcaster(c) ==> row == []
    ensures !(1 <= level <= 20) ==> forall i :: 0 <= i < |row| ==> row[i] == 0
  {
    RowWidths(level);
    if c == Warlock then RowOr(WarlockRow(level), 5)
    else if IsHalfCaster(c) then RowOr(HalfCasterRow(level), 5)
    else if IsFullCaster(c) then RowOr(FullCasterRow(level), 9)
    else []
  }

  lemma RowWidths(level: int)
    ensures FullCasterRow(level).Some? <==> 1 <= level <= 20
    ensures HalfCasterRow(level).Some? <==> 1 <= level <= 20
    ensures WarlockRow(level).Some? <==> 1 <= level <= 20
    ensures FullCasterRow(level).Some? ==> |FullCasterRow(level).value| == 9
    ensures HalfCasterRow(level).Some? ==> |HalfCasterRow(level).value| == 5
    ensures WarlockRow(level).Some? ==> |WarlockRow(level).value| == 5
  {
  }

  // ---------------------------------------------------------------------
  // Stepwise progression tables
  // ---------------------------------------------------------------------

  /** A progression: (level threshold, count) entries in the order the
      sheet iterates them, i.e. ascending integer keys. */
  type Steps = seq<(nat, nat)>

  /** Thresholds strictly ascend and counts never decrease. */
  predicate Progression(t: Steps)
  {
    forall i :: 0 < i < |t| ==> t[i - 1].0 < t[i].0 && t[i - 1].1 <= t[i].1
  }

  /** A table keyed by every level 1..|counts|. */
  function EveryLevel(counts: seq<nat>): (t: Steps)
    ensures |t| == |counts|
    ensures forall i :: 0 <= i < |t| ==> t[i] == (i + 1, counts[i])
  {
    seq(|counts|, i requires 0 <= i < |counts| => (i + 1, counts[i]))
  }

  function CantripTable(c: CharClass): Option<Steps>
  {
    match c
    case Bard => Some([(1, 2), (4, 3), (10, 4)])
    case Cleric => Some([(1, 3), (4, 4), (10, 5)])
    case Druid => Some([(1, 2), (4, 3), (10, 4)])
    case Sorcerer => Some([(1, 4), (4, 5), (10, 6)])
    case Warlock => Some([(1, 2), (4, 3), (10, 4)])
    case Wizard => Some([(1, 3), (4, 4), (10, 5)])
    case _ => None
  }

  function SpellsKnownTable(c: CharClass): Option<Steps>
  {
    match c
    case Bard => Some(EveryLevel([4, 5, 6, 7, 8, 9, 10, 11, 12, 14, 15, 15, 16, 18, 19, 19, 20, 22, 22, 22]))
    case Ranger => Some([(2, 2), (3, 3), (5, 4), (7, 5), (9, 6), (11, 7), (13, 8), (15, 9), (17, 10), (19, 11)])
    case Sorcerer => Some(EveryLevel([2, 3, 4, 5, 6, 7, 8, 9, 10, 11, 12, 12, 13, 13, 14, 14, 15, 15, 15, 15]))
    case Warlock => Some(EveryLevel([2, 3, 4, 5, 6, 7, 8, 9, 10, 10, 11, 11, 12, 12, 13, 13, 14, 14, 15, 15]))
    case _ => None
  }

  /** The count at the last entry whose threshold is at most `level`, or 0
      when `level` is below every threshold (see StepValueBelowAll and
      StepValueSelects). */
  function StepValue(t: Steps, level: int): nat
  {
    if t == [] then 0
    else if t[|t| - 1].0 <= level then t[|t| - 1].1
    else StepValue(t[..|t| - 1], level)
  }

  /** Below every threshold the lookup gives 0. */
  lemma {:induction false} StepValueBelowAll(t: Steps, level: int)
    requires forall i :: 0 <= i < |t| ==> level < t[i].0
    ensures StepValue(t, level) == 0
  {
    if t != [] {
      StepValueBelowAll(t[..|t| - 1], level);
    }
  }

  /** When entry `i` is the last one whose threshold `level` reaches, the
      lookup gives its count. */
  lemma {:induction false} StepValueSelects(t: Steps, level: int, i: nat)
    requires i < |t| && t[i].0 <= level
    requires forall k :: i < k < |t| ==> level < t[k].0
    ensures StepValue(t, level) == t[i].1
  {
    if i < |t| - 1 {
      assert level < t[|t| - 1].0;
      StepValueSelects(t[..|t| - 1], level, i);
    }
  }

  /** The sheet's threshold loop: walk the entries in ascending key order and
      keep the count of every threshold the level reaches. */
  method StepLookup(t: Steps, level: int) returns (v: nat)
    ensures v == StepValue(t, level)
  {
    v := 0;
    var i := 0;
    while i < |t|
      invariant i <= |t|
      invariant v == StepValue(t[..i], level)
    {
      ghost var prefix := t[..i + 1];
      assert prefix[..i] == t[..i] && prefix[i] == t[i];
      StepValueExtend(prefix, level);
      if level >= t[i].0 {
        v := t[i].1;
      }
      i := i + 1;
    }
    assert t[..i] == t;
  }

  lemma StepValueExtend(t: Steps, level: int)
    requires t != []
    ensures StepValue(t, level) ==
      if t[|t| - 1].0 <= level then t[|t| - 1].1 else StepValue(t[..|t| - 1], level)
  {
  }

  /** On a progression the selected entry is the one with the greatest
      threshold at most `level`, so a higher level never selects less. */
  lemma {:induction false} StepValueMonotone(t: Steps, lo: int, hi: int)
    requires Progression(t) && lo <= hi
    ensures StepValue(t, lo) <= StepValue(t, hi)
  {
    if t != [] {
      var init := t[..|t| - 1];
      assert Progression(init);
      if t[|t| - 1].0 <= lo {
      } else if t[|t| - 1].0 <= hi {
        StepValueAtMostLast(init, lo);
        if init != [] { assert init[|init| - 1] == t[|t| - 2]; }
      } else {
        StepValueMonotone(init, lo, hi);
      }
    }
  }

  lemma {:induction false} StepValueAtMostLast(t: Steps, level: int)
    requires Progression(t)
    ensures t == [] ==> StepValue(t, level) == 0
    ensures t != [] ==> StepValue(t, level) <= t[|t| - 1].1
  {
    if t != [] && level < t[|t| - 1].0 {
      var init := t[..|t| - 1];
      assert Progression(init);
      StepValueAtMostLast(init, level);
      if init != [] { assert init[|init| - 1] == t[|t| - 2]; }
    }
  }

  lemma TablesAreProgressions(c: CharClass)
    ensures CantripTable(c).Some? ==> Progression(CantripTable(c).value)
    ensures SpellsKnownTable(c).Some? ==> Progression(SpellsKnownTable(c).value)
  {
    CantripTablesAscend(c);
    KnownTablesAscend(c);
  }

  lemma CantripTablesAscend(c: CharClass)
    ensures CantripTable(c).Some? ==> Progression(CantripTable(c).value)
  {
  }

  lemma KnownTablesAscend(c: CharClass)
    ensures SpellsKnownTable(c).Some? ==> Progression(SpellsKnownTable(c).value)
  {
    match c
    case Bard => BardKnownAscends();
    case Sorcerer => SorcererKnownAscends();
    case Warlock => WarlockKnownAscends();
    case Ranger => assert Progression(SpellsKnownTable(Ranger).value);
    case _ =>
  }

  lemma BardKnownAscends()
    ensures Progression(SpellsKnownTable(Bard).value)
  {
    var counts := [4, 5, 6, 7, 8, 9, 10, 11, 12, 14, 15, 15, 16, 18, 19, 19, 20, 22, 22, 22];
    EveryLevelProgression(counts);
  }

  lemma SorcererKnownAscends()
    ensures Progression(SpellsKnownTable(Sorcerer).value)
  {
    var counts := [2, 3, 4, 5, 6, 7, 8, 9, 10, 11, 12, 12, 13, 13, 14, 14, 15, 15, 15, 15];
    EveryLevelProgression(counts);
  }

  lemma WarlockKnownAscends()
    ensures Progression(SpellsKnownTable(Warlock).value)
  {
    var counts := [2, 3, 4, 5, 6, 7, 8, 9, 10, 10, 11, 11, 12, 12, 13, 13, 14, 14, 15, 15];
    EveryLevelProgression(counts);
  }

  lemma EveryLevelProgression(counts: seq<nat>)
    requires forall i :: 0 < i < |counts| ==> counts[i - 1] <= counts[i]
    ensures Progression(EveryLevel(counts))
  {
  }

  // ---------------------------------------------------------------------
  // Derived statistics
  // ---------------------------------------------------------------------

  /** `Math.floor((score - 10) / 2)`; Dafny's `/` already rounds down. */
  function AbilityModifier(score: int): (m: int)
    ensures 2 * m <= score - 10 < 2 * m + 2
  {
    (score - 10) / 2
  }

  /** `Math.ceil(level / 4) + 1`. */
  function ProficiencyBonus(level: int): (pb: int)
    ensures 4 * (pb - 2) < level <= 4 * (pb - 1)
  {
    (level + 3) / 4 + 1
  }

  datatype CastingStats = CastingStats(ability: Ability, saveDC: int, attackBonus: int)

  /** Spell save DC and spell attack bonus from the class's spellcasting
      ability; nothing for a class without one. */
  function SpellcastingStats(c: CharClass, scores: Scores, pb: int): (r: Option<CastingStats>)
    ensures r.None? <==> SpellcastingAbility(c).None?
    ensures r.Some? ==> r.value.ability == SpellcastingAbility(c).value
    ensures r.Some? ==> r.value.saveDC == 8 + r.value.attackBonus
    ensures r.Some? ==> var m := r.value.attackBonus - pb;
      2 * m <= scores.Of(r.value.ability) - 10 < 2 * m + 2
  {
    match SpellcastingAbility(c)
    case None => None
    case Some(a) =>
      var m := AbilityModifier(scores.Of(a));
      Some(CastingStats(a, 8 + m + pb, m + pb))
  }

  datatype Skill =
    | Acrobatics | AnimalHandling | Arcana | Athletics | Deception | History
    | Insight | Intimidation | Investigation | Medicine | Nature | Perception
    | Performance | Persuasion | Religion | SleightOfHand | Stealth | Survival

  function SkillAbility(s: Skill): Ability
  {
    match s
    case Athletics => Strength
    case Acrobatics | SleightOfHand | Stealth => Dexterity
    case Arcana | History | Investigation | Nature | Religion => Intelligence
    case AnimalHandling | Insight | Medicine | Perception | Survival => Wisdom
    case Deception | Intimidation | Performance | Persuasion => Charisma
  }

  /** A skill's bonus: its ability's modifier, plus the proficiency bonus when
      the character is proficient in it. */
  function SkillBonus(s: Skill, scores: Scores, pb: int, proficient: bool): (b: int)
    ensures var m := b - (if proficient then pb else 0);
      2 * m <= scores.Of(SkillAbility(s)) - 10 < 2 * m + 2
  {
    AbilityModifier(scores.Of(SkillAbility(s))) + (if proficient then pb else 0)
  }

  // ---------------------------------------------------------------------
  // Capacity
  // ---------------------------------------------------------------------

  /** `updateCantripsKnown`: the cantrip progression's count at `level`, 0 for
      a class without one. */
  function MaxCantrips(c: CharClass, level: int): nat
  {
    match CantripTable(c)
    case None => 0
    case Some(t) => StepValue(t, level)
  }

  datatype Limit = Unlimited | AtMost(n: int)
  {
    predicate Allows(count: nat)
    {
      Unlimited? || count < n
    }
  }

  function Max(a: int, b: int): int { if a < b then b else a }
  function Min(a: int, b: int): int { if a < b then a else b }

  /** `updateSpellsKnown`: wizards are uncapped; other "prepared" classes may
      prepare level + max(1, modifier); "known" classes follow their table. */
  function MaxSpells(c: CharClass, level: int, scores: Scores): Limit
  {
    if c == Wizard then Unlimited
    else if PreparationMethod(c) == Some(Prepared) then
      AtMost(level + Max(1, AbilityModifier(scores.Of(SpellcastingAbility(c).value))))
    else
      match SpellsKnownTable(c)
      case None => AtMost(0)
      case Some(t) => AtMost(StepValue(t, level))
  }

  /** Raising the level never lowers the number of cantrips. */
  lemma MaxCantripsMonotone(c: CharClass, lo: int, hi: int)
    requires lo <= hi
    ensures MaxCantrips(c, lo) <= MaxCantrips(c, hi)
  {
    TablesAreProgressions(c);
    if CantripTable(c).Some? {
      StepValueMonotone(CantripTable(c).value, lo, hi);
    }
  }

  /** Every cantrip progression has the same shape: a class base from level
      1, one more from level 4 and one more from level 10. */
  lemma MaxCantripsClosedForm(c: CharClass, level: int)
    ensures MaxCantrips(c, level) ==
      match c
      case Bard | Druid | Warlock => if level < 1 then 0 else 2 + (if level >= 4 then 1 else 0) + (if level >= 10 then 1 else 0)
      case Cleric | Wizard => if level < 1 then 0 else 3 + (if level >= 4 then 1 else 0) + (if level >= 10 then 1 else 0)
      case Sorcerer => if level < 1 then 0 else 4 + (if level >= 4 then 1 else 0) + (if level >= 10 then 1 else 0)
      case _ => 0
  {
    if CantripTable(c).Some? {
      var t := CantripTable(c).value;
      if level >= 10 {
        StepValueSelects(t, level, 2);
      } else if level >= 4 {
        StepValueSelects(t, level, 1);
      } else if level >= 1 {
        StepValueSelects(t, level, 0);
      } else {
        StepValueBelowAll(t, level);
      }
    }
  }

  /** Raising the level never lowers the spell cap of a capped class, and
      only wizards are uncapped. */
  lemma MaxSpellsMonotone(c: CharClass, lo: int, hi: int, scores: Scores)
    requires lo <= hi
    ensures MaxSpells(c, lo, scores).Unlimited? <==> c == Wizard
    ensures MaxSpells(c, hi, scores).Unlimited? <==> c == Wizard
    ensures c != Wizard ==> MaxSpells(c, lo, scores).n <= MaxSpells(c, hi, scores).n
  {
    TablesAreProgressions(c);
    if c != Wizard && PreparationMethod(c) != Some(Prepared) && SpellsKnownTable(c).Some? {
      StepValueMonotone(SpellsKnownTable(c).value, lo, hi);
    }
  }

  /** A known-spells class below its first threshold may know no spells:
      a ranger only learns spells from level 2. */
  lemma KnownSpellsBelowFirstThreshold(c: CharClass, level: int, scores: Scores)
    requires PreparationMethod(c) == Some(Known) && SpellsKnownTable(c).Some?
    requires level < SpellsKnownTable(c).value[0].0
    ensures MaxSpells(c, level, scores) == AtMost(0)
  {
    var t := SpellsKnownTable(c).value;
    TablesAreProgressions(c);
    forall i | 0 <= i < |t| ensures level < t[i].0 {
      ProgressionAscends(t, 0, i);
    }
    StepValueBelowAll(t, level);
  }

  lemma {:induction false} ProgressionAscends(t: Steps, i: nat, j: nat)
    requires Progression(t) && i <= j < |t|
    ensures t[i].0 <= t[j].0
  {
    if i < j {
      ProgressionAscends(t, i, j - 1);
    }
  }

  /** Prepared classes other than the wizard may always prepare at least
      level + 1 spells, and level + modifier when the modifier is higher. */
  lemma PreparedSpellsFloor(c: CharClass, level: int, scores: Scores)
    requires c != Wizard && PreparationMethod(c) == Some(Prepared)
    ensures var m := AbilityModifier(scores.Of(SpellcastingAbility(c).value));
      MaxSpells(c, level, scores) == AtMost(if m < 1 then level + 1 else level + m)
  {
  }

  // ---------------------------------------------------------------------
  // Spell-level tabs
  // ---------------------------------------------------------------------

  /** The highest spell level (1-based) with at least one slot; 0 if none. */
  function HighestSlotLevel(row: seq<nat>): (h: nat)
    ensures h <= |row|
    ensures h > 0 ==> row[h - 1] > 0
    ensures forall i :: h <= i < |row| ==> row[i] == 0
  {
    if row == [] then 0
    else if row[|row| - 1] > 0 then |row|
    else HighestSlotLevel(row[..|row| - 1])
  }

  /** `renderSpellTabs`: the highest spell level that gets a tab, as written.
      The warlock branch has no step for 3rd level. */
  function MaxSpellTabLevel(c: CharClass, level: int): int
  {
    if IsHalfCaster(c) then Min(5, (level + 3) / 4)
    else if c == Warlock then
      if level >= 17 then 5 else if level >= 11 then 4 else if level >= 3 then 2 else 1
    else Min(9, (level + 1) / 2)
  }

  /** The spell level of the warlock's pact slots at each character level, as
      the warlock slot table gives it: 1st from level 1, 2nd from 3, 3rd from
      5, 4th from 11 and 5th from 17. */
  function WarlockSlotLevel(level: int): int
  {
    if level >= 17 then 5 else if level >= 11 then 4 else if level >= 5 then 3
    else if level >= 3 then 2 else 1
  }

  /** The tab computation with the warlock's 3rd-level step that its own slot
      table implies (levels 5 to 10 hold 3rd-level pact slots). */
  function MaxSpellTabLevelFixed(c: CharClass, level: int): int
  {
    if c == Warlock then WarlockSlotLevel(level) else MaxSpellTabLevel(c, level)
  }

  /** As written, a level-5 warlock has 3rd-level slots but tabs only up to
      2nd level, so a 3rd-level spell it learns is never listed. */
  lemma WarlockTabsMissThirdLevel()
    ensures HighestSlotLevel(SlotRow(Warlock, 5)) == 3
    ensures MaxSpellTabLevel(Warlock, 5) == 2
  {
    assert SlotRow(Warlock, 5) == [0, 0, 2, 0, 0];
  }

  /** A row's highest slot level is the last non-zero position. */
  lemma HighestIs(row: seq<nat>, k: nat)
    requires k <= |row| && (k == 0 || row[k - 1] > 0)
    requires forall i :: k <= i < |row| ==> row[i] == 0
    ensures HighestSlotLevel(row) == k
  {
  }

  /** For every spellcasting class at every level 1..20 (2..20 for the half
      casters) the corrected tabs reach exactly the highest spell level that
      has slots. A half caster at level 1 is the exception: its slot row is
      all zeros, yet it still gets a 1st-level tab (see
      HalfCasterFirstLevelTabWithoutSlots). */
  lemma FixedTabsMatchSlots(c: CharClass, level: int)
    requires IsSpellcaster(c) && 1 <= level <= 20
    requires IsHalfCaster(c) ==> level >= 2
    ensures MaxSpellTabLevelFixed(c, level) == HighestSlotLevel(SlotRow(c, level))
  {
    if c == Warlock {
      WarlockRows(level);
    } else if IsHalfCaster(c) {
      HalfCasterRows(level);
    } else {
      FullCasterRows(level);
    }
  }

  /** At level 1 a paladin or ranger has no spell slots, yet the tab
      computation gives it a 1st-level tab. */
  lemma HalfCasterFirstLevelTabWithoutSlots(c: CharClass)
    requires IsHalfCaster(c)
    ensures HighestSlotLevel(SlotRow(c, 1)) == 0
    ensures MaxSpellTabLevel(c, 1) == 1
  {
    assert SlotRow(c, 1) == [0, 0, 0, 0, 0];
  }

  /** A full caster's highest slot level at character level L is min(9, ceil(L/2)). */
  lemma FullCasterRows(level: int)
    requires 1 <= level <= 20
    ensures HighestSlotLevel(FullCasterRow(level).value) == Min(9, (level + 1) / 2)
  {
    if level <= 10 {
      FullCasterRowsLow(level);
    } else {
      FullCasterRowsHigh(level);
    }
  }

  lemma FullCasterRowsLow(level: int)
    requires 1 <= level <= 10
    ensures HighestSlotLevel(FullCasterRow(level).value) == Min(9, (level + 1) / 2)
  {
    if level == 1 {
      HighestIs(FullCasterRow(1).value, 1);
    } else if level == 2 {
      HighestIs(FullCasterRow(2).value, 1);
    } else if level == 3 {
      HighestIs(FullCasterRow(3).value, 2);
    } else if level == 4 {
      HighestIs(FullCasterRow(4).value, 2);
    } else if level == 5 {
      HighestIs(FullCasterRow(5).value, 3);
    } else if level == 6 {
      HighestIs(FullCasterRow(6).value, 3);
    } else if level == 7 {
      HighestIs(FullCasterRow(7).value, 4);
    } else if level == 8 {
      HighestIs(FullCasterRow(8).value, 4);
    } else if level == 9 {
      HighestIs(FullCasterRow(9).value, 5);
    } else if level == 10 {
      HighestIs(FullCasterRow(10).value, 5);
    }
  }

  lemma FullCasterRowsHigh(level: int)
    requires 11 <= level <= 20
    ensures HighestSlotLevel(FullCasterRow(level).value) == Min(9, (level + 1) / 2)
  {
    if level == 11 {
      HighestIs(FullCasterRow(11).value, 6);
    } else if level == 12 {
      HighestIs(FullCasterRow(12).value, 6);
    } else if level == 13 {
      HighestIs(FullCasterRow(13).value, 7);
    } else if level == 14 {
      HighestIs(FullCasterRow(14).value, 7);
    } else if level == 15 {
      HighestIs(FullCasterRow(15).value, 8);
    } else if level == 16 {
      HighestIs(FullCasterRow(16).value, 8);
    } else if level == 17 {
      HighestIs(FullCasterRow(17).value, 9);
    } else if level == 18 {
      HighestIs(FullCasterRow(18).value, 9);
    } else if level == 19 {
      HighestIs(FullCasterRow(19).value, 9);
    } else if level == 20 {
      HighestIs(FullCasterRow(20).value, 9);
    }
  }

  /** A half caster's highest slot level at character level L >= 2 is min(5, ceil(L/4)). */
  lemma HalfCasterRows(level: int)
    requires 2 <= level <= 20
    ensures HighestSlotLevel(HalfCasterRow(level).value) == Min(5, (level + 3) / 4)
  {
    if level <= 10 {
      HalfCasterRowsLow(level);
    } else {
      HalfCasterRowsHigh(level);
    }
  }

  lemma HalfCasterRowsLow(level: int)
    requires 2 <= level <= 10
    ensures HighestSlotLevel(HalfCasterRow(level).value) == Min(5, (level + 3) / 4)
  {
    if level == 2 {
      HighestIs(HalfCasterRow(2).value, 1);
    } else if level == 3 {
      HighestIs(HalfCasterRow(3).value, 1);
    } else if level == 4 {
      HighestIs(HalfCasterRow(4).value, 1);
    } else if level == 5 {
      HighestIs(HalfCasterRow(5).value, 2);
    } else if level == 6 {
      HighestIs(HalfCasterRow(6).value, 2);
    } else if level == 7 {
      HighestIs(HalfCasterRow(7).value, 2);
    } else if level == 8 {
      HighestIs(HalfCasterRow(8).value, 2);
    } else if level == 9 {
      HighestIs(HalfCasterRow(9).value, 3);
    } else if level == 10 {
      HighestIs(HalfCasterRow(10).value, 3);
    }
  }

  lemma HalfCasterRowsHigh(level: int)
    requires 11 <= level <= 20
    ensures HighestSlotLevel(HalfCasterRow(level).value) == Min(5, (level + 3) / 4)
  {
    if level == 11 {
      HighestIs(HalfCasterRow(11).value, 3);
    } else if level == 12 {
      HighestIs(HalfCasterRow(12).value, 3);
    } else if level == 13 {
      HighestIs(HalfCasterRow(13).value, 4);
    } else if level == 14 {
      HighestIs(HalfCasterRow(14).value, 4);
    } else if level == 15 {
      HighestIs(HalfCasterRow(15).value, 4);
    } else if level == 16 {
      HighestIs(HalfCasterRow(16).value, 4);
    } else if level == 17 {
      HighestIs(HalfCasterRow(17).value, 5);
    } else if level == 18 {
      HighestIs(HalfCasterRow(18).value, 5);
    } else if level == 19 {
      HighestIs(HalfCasterRow(19).value, 5);
    } else if level == 20 {
      HighestIs(HalfCasterRow(20).value, 5);
    }
  }

  /** The warlock's highest slot level: 1, 2, 3, 4 and 5 from levels 1, 3, 5, 11 and 17. */
  lemma WarlockRows(level: int)
    requires 1 <= level <= 20
    ensures HighestSlotLevel(WarlockRow(level).value) == WarlockSlotLevel(level)
  {
    if level <= 10 {
      WarlockRowsLow(level);
    } else {
      WarlockRowsHigh(level);
    }
  }

  lemma WarlockRowsLow(level: int)
    requires 1 <= level <= 10
    ensures HighestSlotLevel(WarlockRow(level).value) == WarlockSlotLevel(level)
  {
    if level == 1 {
      HighestIs(WarlockRow(1).value, 1);
    } else if level == 2 {
      HighestIs(WarlockRow(2).value, 1);
    } else if level == 3 {
      HighestIs(WarlockRow(3).value, 2);
    } else if level == 4 {
      HighestIs(WarlockRow(4).value, 2);
    } else if level == 5 {
      HighestIs(WarlockRow(5).value, 3);
    } else if level == 6 {
      HighestIs(WarlockRow(6).value, 3);
    } else if level == 7 {
      HighestIs(WarlockRow(7).value, 3);
    } else if level == 8 {
      HighestIs(WarlockRow(8).value, 3);
    } else if level == 9 {
      HighestIs(WarlockRow(9).value, 3);
    } else if level == 10 {
      HighestIs(WarlockRow(10).value, 3);
    }
  }

  lemma WarlockRowsHigh(level: int)
    requires 11 <= level <= 20
    ensures HighestSlotLevel(WarlockRow(level).value) == WarlockSlotLevel(level)
  {
    if level == 11 {
      HighestIs(WarlockRow(11).value, 4);
    } else if level == 12 {
      HighestIs(WarlockRow(12).value, 4);
    } else if level == 13 {
      HighestIs(WarlockRow(13).value, 4);
    } else if level == 14 {
      HighestIs(WarlockRow(14).value, 4);
    } else if level == 15 {
      HighestIs(WarlockRow(15).value, 4);
    } else if level == 16 {
      HighestIs(WarlockRow(16).value, 4);
    } else if level == 17 {
      HighestIs(WarlockRow(17).value, 5);
    } else if level == 18 {
      HighestIs(WarlockRow(18).value, 5);
    } else if level == 19 {
      HighestIs(WarlockRow(19).value, 5);
    } else if level == 20 {
      HighestIs(WarlockRow(20).value, 5);
    }
  }

  // ---------------------------------------------------------------------
  // Scenarios
  // ---------------------------------------------------------------------

  /** The stored wizard: level 4, intelligence 18. */
  lemma WizardScenario(scores: Scores)
    requires scores.intelligence == 18
    ensures AbilityModifier(18) == 4 && ProficiencyBonus(4) == 2
    ensures SpellcastingStats(Wizard, scores, ProficiencyBonus(4)) == Some(CastingStats(Intelligence, 14, 6))
    ensures MaxCantrips(Wizard, 4) == 4
    ensures MaxSpells(Wizard, 4, scores) == Unlimited
  {
    MaxCantripsClosedForm(Wizard, 4);
  }
}
