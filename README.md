# D&D 5e character sheet: spellcasting rules and journal notes

This project models, in Dafny, the rules engine of a browser-based Dungeons &
Dragons 5th-edition character sheet and proves properties of that model. It
also models the note list of the sheet's journal.

The rules engine lives in the `CharacterSheet` class of `script.js`. It covers:

- **Class tables** (`getSpellcastingData`): the spellcasting ability and the
  preparation method of each class, the spell-slot rows for full casters, half
  casters and warlocks, and the stepwise cantrip and spells-known progressions.
- **Derived numbers**:
  - the ability modifier;
  - the proficiency bonus;
  - the spell save DC and the spell attack bonus;
  - skill bonuses;
  - the cantrip cap and the spell cap;
  - the highest spell level that gets a tab.
- **The slot state machine**: the `spellSlots` and `usedSpellSlots` maps are
  rebuilt after a class or level change and clamped to the new row. The
  `toggleSpellSlot` click handler and `castSpell` (lowest free slot first)
  update them, and the short and long rests reset them.
- **The spell lists**: `addSpell` with its name check and its two capacity
  checks, `deleteSpell`, and the prepared checkbox.
- **The dice-roll history**: newest roll first, at most 20 kept.

`journal.js` contributes the note-list operations:

- filter by category;
- display order (pinned first, then newest first);
- add a note at the front;
- toggle a note's pin by id;
- delete a note by id.

## Layout

| file | module | contents |
|---|---|---|
| `wrappers.dfy` | `Wrappers` | `Option` |
| `text.dfy` | `Text` | JavaScript `String.prototype.trim` |
| `seqs.dfy` | `Seqs` | `Array.prototype.filter` on sequences |
| `rules.dfy` | `Rules` | class tables, derived numbers, capacity, spell-tab levels (pure functions and lemmas) |
| `slots.dfy` | `SpellSlots` | the slot maps as values: what reconciling, casting and toggling make of them |
| `sheet.dfy` | `Sheet` | `class CharacterSheet` and `class Spell`, whose methods update fields in place; each method is proved against the `SpellSlots`/`Rules` functions |
| `journal.dfy` | `Journal` | the note-list operations (pure) |

### How values read from the page become inputs

- Values the source reads from form fields become parameters, already coerced
  to integers: the class, the character level, the ability scores and the
  proficiency bonus.
- A `confirm` dialog becomes a boolean parameter.
- An `alert` that rejects an input becomes a result value (`AddOutcome`).
- In `journal.js`, the random UUID and `Date.now()` become the `id` and
  `timestamp` parameters.

## Model

| member | source | states |
|---|---|---|
| Text.LeadingSpace | script.js:814 | the count of leading characters that `trim` removes: they are all white space, and the next character is not |
| Text.TrailingStart | script.js:814 | where trailing white space starts: everything after it is white space, and the character before it is not |
| Text.Trim | journal.js:111 | the result is a slice of the input with only white space cut off at both ends; it neither starts nor ends with white space; it is empty exactly when the input is all white space |
| Text.TrimIdempotent | journal.js:111 | trimming a trimmed string changes nothing |
| Seqs.Filter | journal.js:176 | the result is no longer than the input; every element kept satisfies the predicate and comes from the input; every input element that satisfies it is kept; an input that satisfies it throughout comes back unchanged |
| Seqs.FilterAppend | journal.js:176 | filtering a concatenation is the concatenation of the filtered parts, so survivors keep their relative order |
| Seqs.FilterMultiplicity | script.js:766 | each value occurs in the result as often as in the input if it satisfies the predicate, and not at all otherwise |
| Seqs.FilterRemoving | script.js:766 | filtering out one value removes every occurrence of it and keeps every other element with its multiplicity |
| Rules.SpellcastingAbility | script.js:167-176 | the ability each spellcasting class casts with, none for other classes; no contract of its own: `IsSpellcaster` ties it to the preparation table and `SpellcastingStats` states its use |
| Rules.PreparationMethod | script.js:179-188 | whether each spellcasting class knows or prepares its spells; no contract of its own: `IsSpellcaster`, `CanCastSpell` and `PreparedSpellsFloor` state its effect |
| Rules.IsSpellcaster | script.js:369 | the eight spellcasting classes are exactly the classes that have both a spellcasting ability and a preparation method |
| Rules.FullCasterRow | script.js:191-212 | the full-caster slot table; no contract of its own: `RowWidths` states its levels and width, `FullCasterRows` its highest slot level at every level |
| Rules.HalfCasterRow | script.js:215-236 | the half-caster slot table; no contract of its own: `RowWidths` states its levels and width, `HalfCasterRows` its highest slot level at every level |
| Rules.WarlockRow | script.js:239-260 | the warlock slot table; no contract of its own: `RowWidths` states its levels and width, `WarlockRows` its highest slot level at every level |
| Rules.CantripTable | script.js:263-270 | the cantrip progressions; no contract of its own: `TablesAreProgressions` states they ascend and `MaxCantripsClosedForm` gives their value at every level |
| Rules.SpellsKnownTable | script.js:273-289 | the spells-known progressions; no contract of its own: `TablesAreProgressions` states they ascend and `KnownSpellsBelowFirstThreshold` gives their value below the first threshold |
| Rules.SlotRow | script.js:424-430 | warlocks and half casters get 5-entry rows, full casters 9-entry rows, any other class the empty row; a level outside 1..20 gives all zeros |
| Rules.RowWidths | script.js:191-260 | each slot table has a row for exactly the levels 1..20, 9 wide for full casters and 5 wide for half casters and warlocks |
| Rules.StepValue | script.js:462-466 | the value the threshold loop leaves; no contract of its own: `StepValueBelowAll` and `StepValueSelects` characterise it, `StepLookup` proves the loop computes it, and `StepValueMonotone` states its monotonicity |
| Rules.StepValueBelowAll | script.js:462-466 | the threshold lookup gives 0 when every threshold is above the level |
| Rules.StepValueSelects | script.js:462-466 | the threshold lookup gives the count of the last entry whose threshold the level reaches |
| Rules.StepLookup | script.js:462-466 | the for-in loop over thresholds computes exactly `StepValue` |
| Rules.StepValueMonotone | script.js:495-499 | on a progression a higher level never selects a smaller count |
| Rules.TablesAreProgressions | script.js:263-289 | every cantrip and spells-known table has strictly ascending thresholds and non-decreasing counts |
| Rules.AbilityModifier | script.js:294-296 | the modifier m is the floor of (score − 10)/2, i.e. 2m ≤ score − 10 < 2m + 2 |
| Rules.ProficiencyBonus | script.js:318 | the bonus pb is ceil(level/4) + 1, i.e. 4(pb − 2) < level ≤ 4(pb − 1) |
| Rules.SpellcastingStats | script.js:392-404 | nothing is computed exactly for a class without a spellcasting ability; otherwise the stats use that class's ability, the save DC is 8 + the attack bonus, and the attack bonus is the ability's floor modifier plus pb |
| Rules.SkillAbility | script.js:921-940 | the ability each skill uses; no contract of its own: `SkillBonus` states the bonus in terms of it |
| Rules.SkillBonus | script.js:943-948 | a skill's bonus is the floor modifier of its ability, plus pb exactly when proficient |
| Rules.MaxCantrips | script.js:450-470 | the cantrip cap; no contract of its own: `MaxCantripsClosedForm` gives it at every level for every class and `MaxCantripsMonotone` states that it never drops with level |
| Rules.MaxSpells | script.js:473-506 | the spell cap; no contract of its own: `MaxSpellsMonotone`, `PreparedSpellsFloor` and `KnownSpellsBelowFirstThreshold` state it for each kind of class |
| Rules.MaxCantripsMonotone | script.js:455-466 | raising the level never lowers the cantrip cap |
| Rules.MaxCantripsClosedForm | script.js:263-270 | the cantrip cap is 0 below level 1 or for a class without a table; otherwise the class's base count, plus one from level 4 and one more from level 10 |
| Rules.MaxSpellsMonotone | script.js:479-500 | only wizards are uncapped, and raising the level never lowers any other class's cap |
| Rules.KnownSpellsBelowFirstThreshold | script.js:493-499 | a known-spells class below its first threshold may know no spells (a level-1 ranger) |
| Rules.PreparedSpellsFloor | script.js:484-489 | a prepared class other than the wizard may prepare level + max(1, modifier) spells |
| Rules.HighestSlotLevel | script.js:191-260 | the highest spell level with a slot: that entry is non-zero, and every later entry is zero |
| Rules.MaxSpellTabLevel | script.js:573-583 | the highest tab as written; no contract of its own: `WarlockTabsMissThirdLevel` and `HalfCasterFirstLevelTabWithoutSlots` show where it differs from the slot tables |
| Rules.WarlockSlotLevel | script.js:239-260 | the spell level of the warlock's pact slots at each character level; no contract of its own: `WarlockRows` proves it is the highest slot level of the warlock table |
| Rules.MaxSpellTabLevelFixed | script.js:573-583 | the highest tab with the warlock's 3rd-level step; no contract of its own: `FixedTabsMatchSlots` proves it matches the slot tables |
| Rules.WarlockTabsMissThirdLevel | script.js:576-580 | as written, a level-5 warlock's only slots are 3rd level, yet its tabs stop at 2nd level |
| Rules.FixedTabsMatchSlots | script.js:573-583 | with the warlock's 3rd-level step, every spellcasting class at levels 1..20 (half casters from 2) gets tabs up to exactly its highest slot level |
| Rules.HalfCasterFirstLevelTabWithoutSlots | script.js:574-575 | a level-1 paladin or ranger has no slots, yet gets a 1st-level tab |
| Rules.FullCasterRows | script.js:191-212 | a full caster's highest slot level at character level L is min(9, ceil(L/2)) |
| Rules.HalfCasterRows | script.js:215-236 | a half caster's highest slot level at character level L ≥ 2 is min(5, ceil(L/4)) |
| Rules.WarlockRows | script.js:239-260 | the warlock table's highest slot level is `WarlockSlotLevel`: 1 at levels 1-2, 2 at 3-4, 3 at 5-10, 4 at 11-16 and 5 at 17-20 |
| Rules.WizardScenario | restore_character.js:4-16 | the stored wizard (level 4, INT 18) has modifier +4, pb 2, save DC 14, attack +6, four cantrips and no spell cap |
| SpellSlots.SlotMap | script.js:433-438 | the rebuilt `spellSlots`; no contract of its own: `SlotMapIs` characterises it and `ApplySlotRow` is proved to compute it |
| SpellSlots.Reconciled | script.js:433-446 | the reconciled `usedSpellSlots`; no contract of its own: `ReconciledFits`, `ReconciledIs` and `ReconciledIdempotent` state its properties and `ApplySlotRow` is proved to compute it |
| SpellSlots.ReconciledFits | script.js:433-446 | after reconciling, every row level is present and used ≤ slots there; each row level keeps its old used count when that still fits and drops to the slot count otherwise; levels beyond the row keep their used count |
| SpellSlots.SlotMapIs | script.js:433-438 | a map whose keys are exactly the levels 1..n of the row, each holding its row entry, is the rebuilt `spellSlots` |
| SpellSlots.ReconciledIs | script.js:434-446 | a map that keeps the old keys, adds the row's levels with the clamped used counts and keeps the old counts elsewhere is the reconciled `usedSpellSlots` |
| SpellSlots.ReconciledIdempotent | script.js:433-446 | reconciling twice with the same row gives the same used counts as once |
| SpellSlots.FirstAvailable | script.js:730-736 | the result is the lowest level in from..9 with slots − used > 0, or none when every such level has none free |
| SpellSlots.AfterCast | script.js:746-749 | `usedSpellSlots` after a cast; no contract of its own: `AfterCastSpendsOne` states its properties and `CastSpell` is proved to compute it |
| SpellSlots.AfterCastSpendsOne | script.js:746-751 | a cast marks exactly one more slot used, at the level found; every other level is unchanged; used ≤ slots is preserved |
| SpellSlots.Toggled | script.js:547-556 | `usedSpellSlots` after a slot click; no contract of its own: `ToggledFlipsSlot` states its properties and `ToggleSpellSlot` is proved to compute it |
| SpellSlots.ToggledFlipsSlot | script.js:547-556 | a click flips whether the clicked slot counts as used, leaving the used count at index or index + 1; other levels are unchanged; used ≤ slots is preserved when the slot exists |
| Sheet.Spell.constructor | script.js:825-831 | a spell record holds the given name, level, school, description and prepared flag |
| Sheet.Spell.SetPrepared | script.js:677-679 | the prepared checkbox sets the record's flag in place |
| Sheet.Without | script.js:766 | the spell list without the deleted record: that reference is gone, every other element is kept with its multiplicity, and a list without the record is unchanged |
| Sheet.Newest | script.js:1518-1520 | the history cut to at most n entries is a prefix of the uncut list |
| Sheet.Remember | script.js:1505-1520 | after one roll the history holds between 1 and 20 entries, with the new roll first and then the previous history in order |
| Sheet.RememberAllKeepsNewest | script.js:1515-1520 | after any run of rolls the history is the newest 20 of (the rolls, newest first) followed by the old history |
| Sheet.CharacterSheet.constructor | script.js:5-10 | a new sheet has no slots, no used slots, no spells and no cantrips; the roll history also starts empty, because loading it from storage (script.js:1342) belongs to the persistence that is left out |
| Sheet.CharacterSheet.UpdateSpellSlots | script.js:417-446 | `spellSlots` becomes the row selected by class and level, keyed 1..n, and `usedSpellSlots` is reconciled with that row; used ≤ slots holds afterwards |
| Sheet.CharacterSheet.ApplySlotRow | script.js:433-446 | the loop over a row leaves `spellSlots` as the row keyed 1..n and `usedSpellSlots` reconciled with it, with used ≤ slots on every level that has slots |
| Sheet.CharacterSheet.UpdateSpellcasting | script.js:367-388 | a spellcasting class rebuilds the slots as above; any other class leaves both maps as they were |
| Sheet.CharacterSheet.ToggleSpellSlot | script.js:547-556 | a click sets the used count of the level to index when that slot was used and to index + 1 otherwise |
| Sheet.CharacterSheet.CanCastSpell | script.js:721-739 | true exactly when the spell is not an unprepared spell of a prepared class and some level from the spell's own up to 9 has slots − used > 0 |
| Sheet.CharacterSheet.CastSpell | script.js:742-760 | changes nothing for an unprepared spell of a prepared class or when no slot is free; otherwise spends one slot at the lowest free level from the spell's own and reports that level |
| Sheet.CharacterSheet.ShortRest | script.js:886-897 | a warlock gets every slot back; any other class keeps its used slots |
| Sheet.CharacterSheet.LongRest | script.js:905-907 | every class gets every slot back |
| Sheet.CharacterSheet.DeleteSpell | script.js:764-766 | once confirmed, the record is removed from the spell list and nothing else changes; unconfirmed, nothing changes |
| Sheet.CharacterSheet.AddSpell | script.js:813-856 | rejects a blank name, then a cantrip at the cantrip cap, then a capped spell at the spell cap, in each case leaving both lists unchanged; otherwise appends one new record to the matching list, with the trimmed name and description and with prepared forced on for a cantrip |
| Sheet.CharacterSheet.AddToRollHistory | script.js:1505-1520 | the roll is put first and the history is cut to 20 |
| Sheet.CantripSpendsFirstLevelSlot | script.js:729-751 | a 1st-level wizard casting a cantrip spends one of its 1st-level slots |
| Sheet.StoredWizardFifthCantrip | script.js:833-838 | the stored level-4 wizard with four cantrips is refused a fifth with the cap of 4, and keeps four |
| Journal.Shown | journal.js:78 | the category test of the filter; no contract of its own: `FilterNotes` states the filter in terms of it |
| Journal.FilterNotes | journal.js:77-78 | the filter "all" keeps every note; any other filter keeps exactly the notes of that type, each as often as in the input, and adds none |
| Journal.Precedes | journal.js:79-82 | the comparator: pinned before unpinned, then newer first; no contract of its own: `RenderOrderPinnedFirst` states the order it induces |
| Journal.SortNotes | journal.js:79-82 | the sort, as an insertion sort; no contract of its own: `SortNotesSorts` proves the result sorted and a permutation |
| Journal.InsertKeepsOrder | journal.js:79-82 | inserting into a list in display order keeps it in display order and adds exactly one note |
| Journal.SortNotesSorts | journal.js:79-82 | the sorted list is in display order and is a permutation of its input |
| Journal.RenderOrder | journal.js:77-82 | the notes `renderJournal` lists, in order; no contract of its own: `RenderOrderPinnedFirst` states which notes and in what order |
| Journal.RenderOrderPinnedFirst | journal.js:77-82 | the rendered notes are exactly the notes of the category; every pinned note comes before every unpinned one, and timestamps do not increase within each group |
| Journal.NewNoteType | journal.js:113 | the category of a new note; no contract of its own: `AddNote` states the type it gives and `AddedNoteIsShown` that the note passes the active filter |
| Journal.AddNote | journal.js:110-124 | blank text changes nothing; otherwise the old list is kept after a new unpinned first note with the given id and timestamp and the trimmed text, typed "general" under "all" or no filter and with the filter's value otherwise |
| Journal.AddedNoteIsShown | journal.js:112-124 | a note added under a category filter passes that filter and comes first in the filtered list, before the display sort (which may still put pinned notes ahead of it) |
| Journal.TogglePin | journal.js:162-167 | length and order are kept; `pinned` flips exactly on the notes with the id; every other field is unchanged |
| Journal.TogglePinTwice | journal.js:162-167 | toggling the same id twice restores the list |
| Journal.DeleteNote | journal.js:174-176 | unconfirmed, nothing changes; confirmed, the notes with the id are removed and every other note is kept with its multiplicity |
| Journal.DeleteNoteKeepsOrder | journal.js:176 | deleting distributes over concatenation, so the remaining notes keep their relative order |
| Journal.DeleteUndoesAdd | journal.js:116-124 | deleting a note just added under an unused id gives back the previous list |

## Left out

- Rendering is not modelled: DOM rendering, event wiring, modals, tooltips, navigation and animations are presentation only.
- The spell-tab rendering is reduced to the computation of its highest level.
- Persistence, export and import, and the debounced autosave are not modelled. They are browser storage and timer I/O.
- Dice rolling and the roll display are not modelled because they depend on `Math.random`. Only the history's prepend-and-truncate logic is modelled.
- Hit dice and `restore_character.js`'s storage write are not modelled. The restored character appears only as scenario data (`Rules.WizardScenario`, `Sheet.StoredWizardFifthCantrip`).
- Parsing of form fields (`parseInt(x) || default`) is not modelled. Inputs arrive already coerced, and the caller supplies the default.
- Sheet.CharacterSheet.AddSpell: the source reads the two caps back from the text the page last displayed. The model uses the caps computed from the same class, level and scores, so a stale display is not captured. The spell level also arrives as a natural number rather than from `parseInt`.
- Sheet.CharacterSheet.UpdateSpellcasting: only the slot part is modelled. The DC, attack and cap displays it refreshes are covered by `Rules.SpellcastingStats`, `Rules.MaxCantrips` and `Rules.MaxSpells`.
- Sheet.CharacterSheet.UpdateSpellSlots: used ≤ slots is restored only on the levels of the selected row. The comment at script.js:442 says used slots must not exceed available slots, but the loop at script.js:436 visits only the selected row's levels, and the model follows the loop. For example, a level-20 wizard who becomes a paladin keeps its 6th-9th level used counts, and `Valid()` states the bound only for levels that have slots.
- Sheet.CharacterSheet.DeleteSpell: as in the code, only the spell list is filtered. Deleting from a cantrip card never removes the cantrip.
- Sheet.CharacterSheet.CastSpell: as in the code, the search starts at the spell's own level, so a cantrip (level 0) spends a slot of level 1 or higher (`Sheet.CantripSpendsFirstLevelSlot`). The confirmation alert and the re-render are not modelled.
- Rules.MaxSpellTabLevel: modelled as written, so a level-1 paladin or ranger gets a 1st-level tab although its slot row is all zeros (`Rules.HalfCasterFirstLevelTabWithoutSlots`). `Rules.FixedTabsMatchSlots` therefore covers half casters from level 2 only.
- Journal.SortNotesSorts: states sortedness and permutation, not the stability of `Array.prototype.sort`.
- Journal.RenderOrderPinnedFirst: the JavaScript comparator subtracts timestamps. It is modelled on unbounded integers, so floating-point effects are not modelled.
- Text.Trim: removes the white-space and line-terminator characters that ECMAScript `trim` removes. Unicode category Zs is listed explicitly.

## Findings

| source | as written | input that shows it | evidently intended | confidence | as-written member | corrected member |
|---|---|---|---|---|---|---|
| script.js:576-580 | the warlock's highest spell tab jumps from 2 (levels 3-10) to 4 (level 11) | a level-5 warlock: its slot row (script.js:244) holds only 3rd-level slots, but tabs stop at 2nd level, so a 3rd-level spell is never listed | tabs up to 3rd level from warlock level 5, matching the slot table | not executed | Rules.MaxSpellTabLevel, Rules.WarlockTabsMissThirdLevel | Rules.MaxSpellTabLevelFixed, Rules.FixedTabsMatchSlots |
