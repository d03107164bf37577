/** The spell-slot bookkeeping of the character sheet, stated on values: the
    maps `spellSlots` and `usedSpellSlots` (spell level -> count) and what each
    operation makes of them. The methods of `Sheet.CharacterSheet` are proved
    to compute exactly these. */
module SpellSlots {
  import opened Wrappers
  import Rules

  /** Spell level -> count. */
  type Slots = map<nat, nat>

  /** `m[level] || 0`: a missing level counts as zero. */
  function Get(m: Slots, level: nat): nat
  {
    if level in m then m[level] else 0
  }

  /** Unused slots at `level`; negative when more are marked used than exist. */
  function Available(slots: Slots, used: Slots, level: nat): int
  {
    Get(slots, level) - Get(used, level)
  }

  /** No level that has slots is marked as more used than it has slots. */
  ghost predicate Within(slots: Slots, used: Slots)
  {
    forall level :: level in slots ==> Get(used, level) <= slots[level]
  }

  /** `spellSlots` rebuilt from a slot row: level `i + 1` gets `row[i]`. */
  function SlotMap(row: seq<nat>): Slots
  {
    map level: nat | 1 <= level <= |row| :: RowAt(row, level)
  }

  /** The slots a row gives spell level `level`. */
  function RowAt(row: seq<nat>, level: nat): nat
    requires 1 <= level <= |row|
  {
    row[level - 1]
  }

  /** `usedSpellSlots` after a class or level change: every level of the row
      is present and clamped to its slot count; other levels are kept. */
  function Reconciled(used: Slots, row: seq<nat>): Slots
  {
    used + map level: nat | 1 <= level <= |row| :: Rules.Min(Get(used, level), row[level - 1])
  }

  /** A map with exactly the row's levels as keys, each holding its row entry,
      is `SlotMap(row)`. */
  lemma SlotMapIs(row: seq<nat>, m: Slots)
    requires forall l: nat :: l in m <==> 1 <= l <= |row|
    requires forall l: nat :: 1 <= l <= |row| ==> m[l] == row[l - 1]
    ensures m == SlotMap(row)
  {
  }

  /** A map that has the old keys and the row's levels, holding the clamped
      count on the row's levels and the old count elsewhere, is
      `Reconciled(used, row)`. */
  lemma ReconciledIs(used: Slots, row: seq<nat>, m: Slots)
    requires forall l: nat :: l in m <==> l in used || 1 <= l <= |row|
    requires forall l: nat :: l in m ==>
      m[l] == if 1 <= l <= |row| then Rules.Min(Get(used, l), row[l - 1]) else used[l]
    ensures m == Reconciled(used, row)
  {
  }

  /** Reconciling with a row: the result fits within the rebuilt slots; each
      level of the row keeps its used count when it still fits and drops to
      the slot count otherwise; levels beyond the row keep theirs. */
  lemma ReconciledFits(used: Slots, row: seq<nat>)
    ensures Within(SlotMap(row), Reconciled(used, row))
    ensures forall level :: 1 <= level <= |row| ==> level in Reconciled(used, row)
    ensures forall level :: 1 <= level <= |row| ==>
      var u := Get(Reconciled(used, row), level);
      u <= Get(used, level) && u <= row[level - 1] && (u == Get(used, level) || u == row[level - 1])
    ensures forall level: nat :: !(1 <= level <= |row|) ==>
      (level in Reconciled(used, row) <==> level in used) && Get(Reconciled(used, row), level) == Get(used, level)
  {
  }

  /** Reconciling twice with the same row changes nothing more. */
  lemma ReconciledIdempotent(used: Slots, row: seq<nat>)
    ensures Reconciled(Reconciled(used, row), row) == Reconciled(used, row)
  {
  }

  /** The lowest level in `from..9` with an unused slot, if any. */
  function FirstAvailable(slots: Slots, used: Slots, from: nat): (r: Option<nat>)
    ensures r.Some? ==> from <= r.value <= 9 && Available(slots, used, r.value) > 0
    ensures r.Some? ==> forall level :: from <= level < r.value ==> Available(slots, used, level) <= 0
    ensures r.None? ==> forall level :: from <= level <= 9 ==> Available(slots, used, level) <= 0
    decreases 10 - from
  {
    if from > 9 then None
    else if Available(slots, used, from) > 0 then Some(from)
    else FirstAvailable(slots, used, from + 1)
  }

  /** `usedSpellSlots` after casting a spell of level `from`: one more used
      slot at the lowest level that has one free, or no change. */
  function AfterCast(slots: Slots, used: Slots, from: nat): Slots
  {
    match FirstAvailable(slots, used, from)
    case None => used
    case Some(level) => used[level := Get(used, level) + 1]
  }

  /** Casting marks exactly one more slot used, at a level that had one free,
      leaves every other level alone, and keeps the used counts within the
      slots. */
  lemma AfterCastSpendsOne(slots: Slots, used: Slots, from: nat)
    ensures var r := FirstAvailable(slots, used, from);
      r.Some? ==> Get(AfterCast(slots, used, from), r.value) == Get(used, r.value) + 1
    ensures var r := FirstAvailable(slots, used, from);
      forall level :: (r.None? || level != r.value) ==> Get(AfterCast(slots, used, from), level) == Get(used, level)
    ensures Within(slots, used) ==> Within(slots, AfterCast(slots, used, from))
  {
  }

  /** `usedSpellSlots` after clicking slot `index` (0-based) of `level`. */
  function Toggled(used: Slots, level: nat, index: nat): Slots
  {
    used[level := if index < Get(used, level) then index else index + 1]
  }

  /** Clicking a slot flips that slot, leaves the used slots of the level a
      prefix that ends just before or just after it, and leaves other levels
      alone; clicking a slot that exists keeps the counts within the slots. */
  lemma ToggledFlipsSlot(slots: Slots, used: Slots, level: nat, index: nat)
    ensures var u := Get(Toggled(used, level, index), level);
      (index < u <==> !(index < Get(used, level))) && (u == index || u == index + 1)
    ensures forall other :: other != level ==> Get(Toggled(used, level, index), other) == Get(used, other)
    ensures Within(slots, used) && index < Get(slots, level) ==> Within(slots, Toggled(used, level, index))
  {
  }
}
