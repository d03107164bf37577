/** The `CharacterSheet` object's spellcasting state and the operations that
    change it in place: slot reconciliation, slot toggling, casting, rests,
    adding and deleting spells, and the dice-roll history. Values read from
    the page (class, level, ability scores) are parameters. */
module Sheet {
  import opened Wrappers
  import opened Rules
  import opened SpellSlots
  import Text
  import Seqs

  /** A spell or cantrip record. Lists hold references to these records: the
      prepared checkbox changes `prepared` in place and deletion compares
      references, not contents. */
  class Spell {
    const name: string
    const level: nat
    const school: string
    const description: string
    var prepared: bool

    constructor (name: string, level: nat, school: string, description: string, prepared: bool)
      ensures this.name == name && this.level == level && this.school == school
      ensures this.description == description && this.prepared == prepared
    {
      this.name := name;
      this.level := level;
      this.school := school;
      this.description := description;
      this.prepared := prepared;
    }

    /** The prepared checkbox on a spell card. */
    method SetPrepared(checked: bool)
      modifies this
      ensures prepared == checked
    {
      prepared := checked;
    }
  }

  /** `list` without any reference to `spell`, the rest in order. */
  function Without(list: seq<Spell>, spell: Spell): (r: seq<Spell>)
    ensures spell !in r
    ensures forall i :: 0 <= i < |list| && list[i] != spell ==> list[i] in r
    ensures forall i :: 0 <= i < |r| ==> r[i] in list
    ensures multiset(r) == multiset(list)[spell := 0]
    ensures spell !in list ==> r == list
  {
    var keep := (s: Spell) => s != spell;
    Seqs.FilterRemoving(list, spell, keep);
    Seqs.Filter(list, keep)
  }

  /** One entry of the dice-roll history. */
  datatype RollRecord = RollRecord(expression: string, total: int, rolls: seq<int>, timestamp: string, id: int)

  /** The history keeps at most this many rolls. */
  const HistoryLimit: nat := 20

  /** The first `n` entries of `s`, or all of them when there are fewer. */
  function Newest<T>(s: seq<T>, n: nat): (r: seq<T>)
    ensures |r| == if |s| <= n then |s| else n
    ensures r == s[..|r|]
  {
    if |s| <= n then s else s[..n]
  }

  /** The history after one roll: the new roll first, then the older ones,
      cut to the limit. */
  function Remember(history: seq<RollRecord>, item: RollRecord): (r: seq<RollRecord>)
    ensures 1 <= |r| <= HistoryLimit
    ensures |r| == if |history| < HistoryLimit then |history| + 1 else HistoryLimit
    ensures r[0] == item && r[1..] == history[..|r| - 1]
  {
    Newest([item] + history, HistoryLimit)
  }

  function Reversed<T>(s: seq<T>): (r: seq<T>)
  {
    if s == [] then [] else Reversed(s[1..]) + [s[0]]
  }

  /** The history after several rolls, oldest roll first in `items`. */
  function RememberAll(history: seq<RollRecord>, items: seq<RollRecord>): seq<RollRecord>
    decreases |items|
  {
    if items == [] then history else RememberAll(Remember(history, items[0]), items[1..])
  }

  /** After any run of rolls the history holds the newest rolls, newest first,
      followed by the older history, cut to the limit. */
  lemma {:induction false} RememberAllKeepsNewest(history: seq<RollRecord>, items: seq<RollRecord>)
    requires |history| <= HistoryLimit
    ensures RememberAll(history, items) == Newest(Reversed(items) + history, HistoryLimit)
    decreases |items|
  {
    if items != [] {
      var h1 := Remember(history, items[0]);
      RememberAllKeepsNewest(h1, items[1..]);
      NewestOfNewest(Reversed(items[1..]), [items[0]] + history, HistoryLimit);
      assert Reversed(items) == Reversed(items[1..]) + [items[0]];
      assert Reversed(items[1..]) + ([items[0]] + history) == Reversed(items) + history;
    }
  }

  lemma NewestOfNewest<T>(a: seq<T>, b: seq<T>, n: nat)
    ensures Newest(a + Newest(b, n), n) == Newest(a + b, n)
  {
    var l := |Newest(a + b, n)|;
    assert |Newest(a + Newest(b, n), n)| == l;
    forall k | 0 <= k < l ensures Newest(a + Newest(b, n), n)[k] == Newest(a + b, n)[k] {
      if k >= |a| {
        assert (a + Newest(b, n))[k] == Newest(b, n)[k - |a|];
      }
    }
  }

  datatype AddOutcome =
    | Added(spell: Spell)
    | NameMissing
    | TooManyCantrips(maxCantrips: nat)
    | TooManySpells(maxSpells: int)

  class CharacterSheet {
    /** Slots per spell level for the current class and level. */
    var spellSlots: Slots
    /** Slots marked used per spell level. */
    var usedSpellSlots: Slots
    var spells: seq<Spell>
    var cantrips: seq<Spell>
    var rollHistory: seq<RollRecord>

    /** Every level that has slots has no more of them used than it has. */
    ghost predicate Valid()
      reads this
    {
      Within(spellSlots, usedSpellSlots)
    }

    constructor ()
      ensures spellSlots == map[] && usedSpellSlots == map[]
      ensures spells == [] && cantrips == [] && rollHistory == []
      ensures Valid()
    {
      spellSlots := map[];
      usedSpellSlots := map[];
      spells := [];
      cantrips := [];
      rollHistory := [];
    }

    /** `updateSpellSlots`: rebuild `spellSlots` from the class's row and
        clamp the used counts of the row's levels. */
    method UpdateSpellSlots(c: CharClass, level: int)
      modifies this`spellSlots, this`usedSpellSlots
      ensures spellSlots == SlotMap(SlotRow(c, level))
      ensures usedSpellSlots == Reconciled(old(usedSpellSlots), SlotRow(c, level))
      ensures Valid()
    {
      ApplySlotRow(SlotRow(c, level));
    }

    /** The loop of `updateSpellSlots`: level `i + 1` gets `slots[i]` slots,
        and its used count is defaulted to 0 and clamped to that. */
    method ApplySlotRow(slots: seq<nat>)
      modifies this`spellSlots, this`usedSpellSlots
      ensures spellSlots == SlotMap(slots)
      ensures usedSpellSlots == Reconciled(old(usedSpellSlots), slots)
      ensures Valid()
    {
      spellSlots := map[];
      var i := 0;
      while i < |slots|
        invariant 0 <= i <= |slots|
        invariant forall l: nat :: l in spellSlots <==> 1 <= l <= i
        invariant forall l: nat :: 1 <= l <= i ==> spellSlots[l] == slots[l - 1]
        invariant forall l: nat :: l in usedSpellSlots <==> l in old(usedSpellSlots) || 1 <= l <= i
        invariant forall l: nat :: l in usedSpellSlots ==>
          usedSpellSlots[l] == if 1 <= l <= i then Min(Get(old(usedSpellSlots), l), slots[l - 1]) else old(usedSpellSlots)[l]
      {
        var slotLevel := i + 1;
        spellSlots := spellSlots[slotLevel := slots[i]];
        if Get(usedSpellSlots, slotLevel) == 0 {
          usedSpellSlots := usedSpellSlots[slotLevel := 0];
        }
        if usedSpellSlots[slotLevel] > spellSlots[slotLevel] {
          usedSpellSlots := usedSpellSlots[slotLevel := spellSlots[slotLevel]];
        }
        i := i + 1;
      }
      SlotMapIs(slots, spellSlots);
      ReconciledIs(old(usedSpellSlots), slots, usedSpellSlots);
      ReconciledFits(old(usedSpellSlots), slots);
    }

    /** `updateSpellcasting`, slot part: only a spellcasting class rebuilds
        its slots; any other class keeps the previous class's maps. */
    method UpdateSpellcasting(c: CharClass, level: int)
      modifies this`spellSlots, this`usedSpellSlots
      ensures IsSpellcaster(c) ==> spellSlots == SlotMap(SlotRow(c, level))
      ensures IsSpellcaster(c) ==> usedSpellSlots == Reconciled(old(usedSpellSlots), SlotRow(c, level))
      ensures !IsSpellcaster(c) ==> spellSlots == old(spellSlots) && usedSpellSlots == old(usedSpellSlots)
      ensures old(Valid()) ==> Valid()
    {
      if IsSpellcaster(c) {
        UpdateSpellSlots(c, level);
      }
    }

    /** `toggleSpellSlot`: clicking slot `index` of `level` un-uses it and
        every slot after it when it was used, and uses it and every slot
        before it otherwise. */
    method ToggleSpellSlot(level: nat, index: nat)
      modifies this`usedSpellSlots
      ensures usedSpellSlots == Toggled(old(usedSpellSlots), level, index)
      ensures old(Valid()) && index < Get(spellSlots, level) ==> Valid()
    {
      var used := Get(usedSpellSlots, level);
      if index < used {
        usedSpellSlots := usedSpellSlots[level := index];
      } else {
        usedSpellSlots := usedSpellSlots[level := index + 1];
      }
      ToggledFlipsSlot(spellSlots, old(usedSpellSlots), level, index);
    }

    /** `canCastSpell`: an unprepared spell of a "prepared" class cannot be
        cast; otherwise some level from the spell's own up to 9 must have an
        unused slot. */
    method CanCastSpell(c: CharClass, spell: Spell) returns (ok: bool)
      ensures ok <==>
        && !(PreparationMethod(c) == Some(Prepared) && !spell.prepared)
        && exists level :: spell.level <= level <= 9 && Available(spellSlots, usedSpellSlots, level) > 0
    {
      if PreparationMethod(c) == Some(Prepared) && !spell.prepared {
        return false;
      }
      var level := spell.level;
      while level <= 9
        invariant spell.level <= level
        invariant forall l :: spell.level <= l < level ==> Available(spellSlots, usedSpellSlots, l) <= 0
        decreases 10 - level as int
      {
        if Available(spellSlots, usedSpellSlots, level) > 0 {
          return true;
        }
        level := level + 1;
      }
      return false;
    }

    /** `castSpell`: when the spell can be cast, mark one slot used at the
        lowest level from the spell's own that has one free and report that
        level; otherwise change nothing. */
    method CastSpell(c: CharClass, spell: Spell) returns (slotLevel: Option<nat>)
      modifies this`usedSpellSlots
      ensures var first := FirstAvailable(spellSlots, old(usedSpellSlots), spell.level);
        slotLevel == if PreparationMethod(c) == Some(Prepared) && !spell.prepared then None else first
      ensures usedSpellSlots ==
        if slotLevel.Some? then AfterCast(spellSlots, old(usedSpellSlots), spell.level) else old(usedSpellSlots)
      ensures old(Valid()) ==> Valid()
    {
      var ok := CanCastSpell(c, spell);
      if !ok {
        return None;
      }
      ghost var first := FirstAvailable(spellSlots, usedSpellSlots, spell.level);
      var level := spell.level;
      while Available(spellSlots, usedSpellSlots, level) <= 0
        invariant spell.level <= level <= first.value
        decreases first.value - level
      {
        level := level + 1;
      }
      usedSpellSlots := usedSpellSlots[level := Get(usedSpellSlots, level) + 1];
      AfterCastSpendsOne(spellSlots, old(usedSpellSlots), spell.level);
      return Some(level);
    }

    /** `shortRest`: only a warlock gets its slots back. */
    method ShortRest(c: CharClass)
      modifies this`usedSpellSlots
      ensures usedSpellSlots == if c == Warlock then map[] else old(usedSpellSlots)
      ensures old(Valid()) ==> Valid()
    {
      if c == Warlock {
        usedSpellSlots := map[];
      }
    }

    /** `longRest`: every class gets all its slots back. */
    method LongRest()
      modifies this`usedSpellSlots
      ensures usedSpellSlots == map[]
      ensures Valid()
    {
      usedSpellSlots := map[];
    }

    /** `deleteSpell`: once confirmed, drop the spell record from the spell
        list (never from the cantrip list). */
    method DeleteSpell(spell: Spell, confirmed: bool)
      modifies this`spells
      ensures spells == if confirmed then Without(old(spells), spell) else old(spells)
    {
      if confirmed {
        spells := Without(spells, spell);
      }
    }

    /** `addSpell`: reject a blank name, then a cantrip past the cantrip cap,
        then a non-wizard spell past the spell cap; otherwise append one new
        record to the matching list. A cantrip is always prepared. */
    method AddSpell(c: CharClass, level: int, scores: Scores, rawName: string, spellLevel: nat,
                    school: string, rawDescription: string, checked: bool)
      returns (outcome: AddOutcome)
      modifies this`spells, this`cantrips
      ensures Text.Trim(rawName) == [] ==>
        outcome == NameMissing && spells == old(spells) && cantrips == old(cantrips)
      ensures Text.Trim(rawName) != [] && spellLevel == 0 && |old(cantrips)| >= MaxCantrips(c, level) ==>
        outcome == TooManyCantrips(MaxCantrips(c, level)) && spells == old(spells) && cantrips == old(cantrips)
      ensures Text.Trim(rawName) != [] && spellLevel != 0 && !MaxSpells(c, level, scores).Allows(|old(spells)|) ==>
        outcome == TooManySpells(MaxSpells(c, level, scores).n) && spells == old(spells) && cantrips == old(cantrips)
      ensures outcome.Added? ==>
        && fresh(outcome.spell)
        && outcome.spell.name == Text.Trim(rawName) && outcome.spell.level == spellLevel
        && outcome.spell.school == school && outcome.spell.description == Text.Trim(rawDescription)
        && outcome.spell.prepared == (spellLevel == 0 || checked)
        && (spellLevel == 0 ==> cantrips == old(cantrips) + [outcome.spell] && spells == old(spells))
        && (spellLevel != 0 ==> spells == old(spells) + [outcome.spell] && cantrips == old(cantrips))
      ensures
        (Text.Trim(rawName) != [] && (spellLevel == 0 ==> |old(cantrips)| < MaxCantrips(c, level))
          && (spellLevel != 0 ==> MaxSpells(c, level, scores).Allows(|old(spells)|)))
        ==> outcome.Added?
    {
      var name := Text.Trim(rawName);
      var description := Text.Trim(rawDescription);
      if name == [] {
        return NameMissing;
      }
      var spell := new Spell(name, spellLevel, school, description, if spellLevel == 0 then true else checked);
      if spellLevel == 0 {
        var maxCantrips := MaxCantrips(c, level);
        if |cantrips| >= maxCantrips {
          return TooManyCantrips(maxCantrips);
        }
        cantrips := cantrips + [spell];
      } else {
        var limit := MaxSpells(c, level, scores);
        if !limit.Allows(|spells|) {
          return TooManySpells(limit.n);
        }
        spells := spells + [spell];
      }
      return Added(spell);
    }

    /** `addToRollHistory`, list part: newest roll first, at most 20 kept. */
    method AddToRollHistory(expression: string, total: int, rolls: seq<int>, timestamp: string, id: int)
      modifies this`rollHistory
      ensures rollHistory == Remember(old(rollHistory), RollRecord(expression, total, rolls, timestamp, id))
    {
      var item := RollRecord(expression, total, rolls, timestamp, id);
      rollHistory := [item] + rollHistory;
      if |rollHistory| > HistoryLimit {
        rollHistory := rollHistory[..HistoryLimit];
      }
    }
  }

  /** A 1st-level wizard casting a cantrip: the search starts at level 0,
      which has no slots, so the cantrip spends a 1st-level slot. */
  method CantripSpendsFirstLevelSlot() returns (slotLevel: Option<nat>, usedFirst: nat)
    ensures slotLevel == Some(1) && usedFirst == 1
  {
    var sheet := new CharacterSheet();
    sheet.UpdateSpellcasting(Wizard, 1);
    assert sheet.spellSlots[1] == 2;
    var light := new Spell("Light", 0, "Evocation", "", true);
    slotLevel := sheet.CastSpell(Wizard, light);
    usedFirst := Get(sheet.usedSpellSlots, 1);
  }

  /** The stored level-4 wizard already knows four cantrips; a fifth is
      refused with the cap of four and the list stays as it was. */
  method StoredWizardFifthCantrip(scores: Scores, name: string) returns (outcome: AddOutcome, known: nat)
    requires Text.Trim(name) != []
    ensures outcome == TooManyCantrips(4) && known == 4
  {
    MaxCantripsClosedForm(Wizard, 4);
    var sheet := new CharacterSheet();
    var i := 0;
    while i < 4
      invariant 0 <= i <= 4 && |sheet.cantrips| == i
    {
      var added := sheet.AddSpell(Wizard, 4, scores, name, 0, "Evocation", "", true);
      i := i + 1;
    }
    outcome := sheet.AddSpell(Wizard, 4, scores, name, 0, "Evocation", "", true);
    known := |sheet.cantrips|;
  }
}
