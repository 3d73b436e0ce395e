# Babele safe-merge converters, modelled in Dafny

This project models the merge engine in `scripts/converter.js`. The engine is
a set of Babele converters for Foundry VTT documents. They lay translated
text (names, labels, hints, descriptions) over a document and leave its
mechanical data alone. The entry point is `safeMergeEntity`. It walks the
translation's top-level entries and hands the structured ones to dedicated
merges:

- active effects (`safeMergeEffects` and `applyEffectTextFields`);
- embedded items (`safeMergeEmbedded`);
- activities (`safeMergeActivities`);
- class advancements (`safeMergeAdvancements`);
- flags (`safeMergeFlags`, a recursive `mergeObject`).

Every other key overwrites the output wholesale. After this keyed pass it
merges effects, advancements and `system.activities` once more, from the
source and the whole translation.

## How the model is built

- **JSON values.** `Values.Json` has `undefined`, `null`, booleans, integers,
  strings, arrays and objects. An object keeps its keys in insertion order,
  which is the order `Object.entries` enumerates.
- **Truthiness and property access.** `Truthy`, `Or` (`a || b`), `Get` (`o.k`)
  and `Read` (`o.k`, which throws on null and undefined) are JavaScript's.
  `Write` is `o.k = v` as strict mode runs it.
- **Foundry helpers.** `SetProperty` and `GetProperty` model Foundry's
  `setProperty` and `getProperty`. `Flags.MergeObject` models the default
  path of `mergeObject`.
- **Exceptions.** A thrown exception is a `Result` that is `Throw(fault)`:
  - `TypeError` for reading a property of null or undefined, or writing one
    onto a primitive;
  - `MergeError` for `mergeObject` on non-objects;
  - `ArrayProperty` where the code would write a named property onto an
    array, which this value model does not represent.
- **Order of evaluation.** An assignment's right-hand side is computed before
  the store, as in JavaScript.
- **Values, not references.** Each in-place operation is a function from the
  old value to the new one. Each loop in the source is a Dafny `method` with
  a `while` loop, proved equal to that function.

The two quirks of the code are reproduced as written:

- **A top-level `advancement` key erases advancements.** The keyed pass
  stores the return value of `safeMergeAdvancements`, which is always
  `undefined`. So a translation entry `advancement` (or `system.advancement`)
  sets `out.advancement` to `undefined`, and also `out.system.advancement`
  when there is a `system`. The final advancement pass then finds no array
  and cannot restore them (`Entity.EntityLosesAdvancement`).
- **Activities are recomputed from the source.** When
  `source.system.activities` is non-empty, or the translation has
  `system.activities`, the final pass recomputes `out.system.activities`. It
  uses the source's activities and `translation.system?.activities || {}`,
  and drops what the keyed pass wrote there for a top-level `activities`
  key (`Entity.EntityActivitiesRecomputed`).

Where the design description of this system and the code disagree, the
model follows the code:

- **Key collisions.** When two source elements normalise to the same
  identity key, the LATER one owns it, because `Map.set` overwrites. The
  design says the earlier one wins (`Index.IndexOwners`).
- **Non-strings.** `lc` maps a non-string to `""`, not to null. A truthy
  non-string identity field therefore indexes under `""` (`Keys.Lc`).
- **Advancement shapes.** Only the array of advancements matched by exact
  `title` exists. The code has no `byId` variant.
- **Idempotence.** Merging is not idempotent. A translation entry with no
  identity key appends a new element each time it is applied
  (`Collections.MergeNotIdempotent`). Flags alone are idempotent
  (`Flags.SafeMergeFlagsIdempotent`).
- **Exceptions.** The merge can throw, for example on a null element or a
  null source (`Entity.EntityNullishSource`, `Index.BuildIndex`), though the
  design says a merge never raises.
- **Effect descriptions.** An effect description is written to the top-level
  `description` as well as to the three `flags` locations
  (`EffectText.EffectPatchFields`).

## Model

| member | source | states |
|---|---|---|
| Keys.Lc | scripts/converter.js:12 | a non-string gives `""`; a string's key is never longer than the string |
| Keys.LcShape | scripts/converter.js:12 | a key has no upper-case ASCII letter and no leading or trailing white space |
| Keys.LcFixed | scripts/converter.js:12 | a string with no upper-case ASCII letter and no surrounding white space is its own key, so `lc` changes nothing but case and padding |
| Keys.LcIgnoresCase | scripts/converter.js:12 | strings equal up to ASCII case give the same key |
| Keys.LcIdempotent | scripts/converter.js:12 | normalising a normalised key changes nothing |
| Keys.LcIgnoresPadding | scripts/converter.js:12 | leading and trailing white space never tells two keys apart |
| Keys.Candidates | scripts/converter.js:51 | `[e.f1, ...].filter(Boolean).map(lc)` has at most one key per identity field |
| Keys.CandidatesFirst | scripts/converter.js:51 | a truthy first identity field gives the first key |
| Keys.CandidatesHas | scripts/converter.js:51 | every truthy identity field contributes its normalised value |
| Keys.CandidatesFrom | scripts/converter.js:51 | every key comes from a truthy identity field, normalised |
| Index.SetAll | scripts/converter.js:52 | after `keys.forEach(k => idx.set(k, n))`, every key maps to `n` and the other entries are kept |
| Index.IndexOwners | scripts/converter.js:49-53 | every indexed key points to the LAST element carrying it |
| Index.IndexComplete | scripts/converter.js:49-53 | every candidate key of every element is indexed |
| Index.BuildIndex | scripts/converter.js:49-53 | the two `forEach` loops build `IndexOf`, or throw `TypeError` on a null or undefined element |
| Index.SetKeys | scripts/converter.js:52 | the inner loop computes `SetAll` |
| Index.IndexStep | scripts/converter.js:50-53 | one more element with no null or undefined value adds its keys at its position |
| Index.Find | scripts/converter.js:57-58 | the search finds nothing exactly when the index knows none of the candidate keys |
| Index.FindHit | scripts/converter.js:57-58 | a position found is the index's entry for the first candidate key it knows |
| Index.FindFirst | scripts/converter.js:57-58 | the `break`-ing search loop computes `Find` |
| Values.NestIs | scripts/converter.js:27-29 | `t.a = t.a \|\| {}; t.a.b = t.a.b \|\| {}; t.a.b.c = v` succeeds exactly on an object whose containers are objects or falsy, and stores `v` two levels down |
| Values.SetPropertyReaches | scripts/converter.js:32-34 | after `setProperty(o, path, v)`, the path leads to `v` |
| EffectText.ApplyEffectTextFields | scripts/converter.js:21-36 | the statements of `applyEffectTextFields` compute `EffectPatch` |
| EffectText.RelabelEffect | scripts/converter.js:22-24 | the three assignments compute `Relabelled` |
| EffectText.RelabelledOk | scripts/converter.js:22-24 | the assignments succeed exactly when the translation is not null or undefined and the effect is an object wherever one of them runs |
| EffectText.RelabelledFields | scripts/converter.js:22-24 | `label` becomes the translation's `label`, else its `name`, else stays; `icon` is overwritten when given; nothing else changes |
| EffectText.DescribeEffect | scripts/converter.js:26-35 | the description branch computes `Describe` |
| EffectText.MirrorOk | scripts/converter.js:32-34 | the three `setProperty` copies succeed exactly when `flags`, `flags.dnd5e` and `flags.core` are absent or objects |
| EffectText.MirrorInner | scripts/converter.js:33-34 | inside `flags.dnd5e` and `flags.core` the copies change only `description` |
| EffectText.MirrorFields | scripts/converter.js:32-34 | where the containers allow, the three `setProperty` copies land in `description`, `flags.dnd5e.description` and `flags.core.description`, and change nothing else |
| EffectText.DescribeOk | scripts/converter.js:26-35 | the description branch succeeds exactly when the effect is an object whose flags can hold the description in all four places |
| EffectText.DescribeFields | scripts/converter.js:26-35 | the description reaches all four places; only `flags` and `description` change |
| EffectText.DescribeKeeps | scripts/converter.js:26-35 | every entry of an object `flags` is kept, except the `description` keys of `babele`, `dnd5e` and `core`; the other keys of those three stay the effect's |
| EffectText.EffectPatchFields | scripts/converter.js:21-35 | label from `label`, then `name`; icon when given; a description in all four places, with every other entry of an object `flags` and of its `babele`, `dnd5e` and `core` kept; every field other than `label`, `icon`, `flags` and `description` untouched |
| EffectText.EffectPatchDescribed | scripts/converter.js:21-35 | with a description to write: the new label and icon, the description in all four places, every other entry of an object `flags` and of its `babele`, `dnd5e` and `core` kept, and the fields other than `label`, `icon`, `flags` and `description` untouched |
| EffectText.EffectPatchOk | scripts/converter.js:21-35 | the patch throws exactly on a null translation, a non-object effect that gets written, or flags that cannot hold a description |
| EffectText.NewEffectOk | scripts/converter.js:63-75 | synthesis fails exactly when the translation's own flags cannot hold the description |
| EffectText.NewEffectFields | scripts/converter.js:63-75 | the synthesised effect has label `name \|\| _key \|\| "Unnamed Effect"`, the mystery-man icon, `[]`, `{}` and `false` defaults, and the description under `flags.babele` beside the other flags |
| ItemText.PatchItem | scripts/converter.js:106-113 | the statements of the matched-item branch compute `ItemPatch` |
| ItemText.ItemPatchOk | scripts/converter.js:106-113 | the item patch throws exactly on a null translation, a non-object item that gets written, or non-object truthy containers |
| ItemText.ItemPatchFields | scripts/converter.js:106-113 | `name` is overwritten when truthy; a string description lands in `system.description.value`, keeping the other entries; every other field is untouched |
| ItemText.NewItemFields | scripts/converter.js:115-120 | a synthesised item is a well-formed object with exactly `name`, `type`, `system` and `flags`, all truthy: `name` is `te.name \|\| te._key \|\| "Unnamed"`, `type` is `te.type \|\| "item"`, `system` is `te.system \|\| {}` and `flags` is `te.flags \|\| {}` |
| Collections.Step | scripts/converter.js:55-79 | one translation entry keeps the index in range and adds at most one element |
| Collections.MergeCollection | scripts/converter.js:39-82 | the copy, index and translation loop compute `Merge` |
| Collections.ApplyEntries | scripts/converter.js:55-79 | the translation loop computes `Fold` from the source index |
| Collections.ApplyEntry | scripts/converter.js:55-79 | the loop body computes `Step` |
| Collections.SafeMergeEffects | scripts/converter.js:39-82 | `safeMergeEffects` is `Merge(Effects, ...)` |
| Collections.SafeMergeEmbedded | scripts/converter.js:85-127 | `safeMergeEmbedded` is `Merge(Items, ...)`, with an undefined translation counting as `{}` |
| Collections.PatchKeeps | scripts/converter.js:60-61 | a match rewrites only the fields `Touched` names |
| Collections.StepKeeps | scripts/converter.js:55-79 | one entry keeps every old position and its untouched fields |
| Collections.FoldKeeps | scripts/converter.js:55-79 | the loop keeps every old position, and appends at most one element per entry |
| Collections.MergeKeeps | scripts/converter.js:40-79 | the result starts with the source elements at their positions, with untouched fields kept, and grows by at most one element per entry |
| Collections.MergeFalsy | scripts/converter.js:43 | a falsy translation returns the copy of the source |
| Collections.FirstEntryTarget | scripts/converter.js:56-61 | the first entry resolves to the last source element carrying its first known key |
| Collections.SpreadFields | scripts/converter.js:47 | `{_key: k, ...v}` copies every field of `v`, and `_key` is `k` unless `v` has its own |
| Collections.SpreadFromMiss | scripts/converter.js:47 | a field the spread does not name keeps its value |
| Collections.SpreadFromHit | scripts/converter.js:47 | a spread field takes the value of the pair that names it |
| Collections.MergeIs | scripts/converter.js:43-55 | a truthy translation over present elements folds the entries from the source index |
| Collections.StepHit | scripts/converter.js:60-61 | an entry that hits position `p` patches that element and leaves the index alone |
| Collections.StepMiss | scripts/converter.js:62-77 | an entry that misses appends its synthesised element and indexes it at the new position |
| Collections.FindFirstKey | scripts/converter.js:58 | the search stops at the first key the index knows |
| Collections.MatchIgnoringCase | scripts/converter.js:51-61 | an entry whose key equals an element's identity field up to case patches that element and appends nothing |
| Collections.KeyFindsElement | scripts/converter.js:51-58 | that entry's search finds the element |
| Collections.LaterEntryPatchesFresh | scripts/converter.js:76-77 | an element synthesised in a batch is indexed at once, so a later entry with the same name patches it |
| Collections.FirstEntryAppends | scripts/converter.js:76-77 | on an empty source the first entry is appended and indexed at 0 |
| Collections.KeylessAppends | scripts/converter.js:62-77 | an entry with no identity key never matches and is appended |
| Collections.MergeNotIdempotent | scripts/converter.js:39-82 | merging `[{}]` twice appends twice |
| Activities.SafeMergeActivities | scripts/converter.js:130-138 | the copy and the loop compute `ActivitiesMerge` |
| Activities.MergeActivities | scripts/converter.js:133-136 | the loop computes `ActivityFold` |
| Activities.MergeActivity | scripts/converter.js:134-135 | the loop body computes `ActivityStep` |
| Activities.ActivityStepGet | scripts/converter.js:134-135 | one step inserts `v` under a falsy entry, else renames it by a truthy `v.name`, else leaves it |
| Activities.ActivityFoldGet | scripts/converter.js:133-136 | after the loop every source key is kept, and each translated key holds `Merged` of its old value |
| Activities.ActivitiesMergeFields | scripts/converter.js:130-138 | every source key is kept; a missing or falsy entry is inserted verbatim; an existing one changes only `name`, and only to a truthy `v.name` |
| Activities.ActivitiesFalsy | scripts/converter.js:131 | a falsy translation returns the source itself |
| Activities.ActivityStepOk | scripts/converter.js:134-135 | on an object, a step whose entry fits does not throw and gives an object; the converse (a step that does not throw had a fitting entry) is `Activities.ActivityStepGet` |
| Activities.ActivityFoldOk | scripts/converter.js:133-136 | on an object, the loop does not throw when every entry fits; the converse is `Activities.ActivityFoldGet` |
| Activities.ActivitiesMergeOk | scripts/converter.js:130-138 | the merge succeeds exactly when every translated entry fits its source entry |
| Advancements.FindEntry | scripts/converter.js:150 | the search throws exactly on a null or undefined entry when there are keys to try |
| Advancements.FindEntryHit | scripts/converter.js:150 | the value found belongs to the first key exactly equal to `adv.title`; nothing is found exactly when no key equals it |
| Advancements.FindMatch | scripts/converter.js:150 | the `.find` loop computes `FindEntry` |
| Advancements.SafeMergeAdvancements | scripts/converter.js:143-160 | the reads and the loop compute `AdvancementsMerge` |
| Advancements.UpdateEntries | scripts/converter.js:149-159 | the `forEach` over the list computes `AdvFrom` |
| Advancements.UpdateEntry | scripts/converter.js:150-158 | the callback computes `AdvStep` |
| Advancements.RelabelEntry | scripts/converter.js:154-155 | the two conditional assignments compute `Relabel` |
| Advancements.StampEntry | scripts/converter.js:157-158 | the two `setProperty` stamps compute `Stamp` |
| Advancements.RelabelFields | scripts/converter.js:154-155 | `title` becomes a truthy `value.name`, `hint` a truthy `value.description`; nothing else changes |
| Advancements.StampOk | scripts/converter.js:157-158 | the two `setProperty` stamps succeed exactly on an entry whose `flags` and `flags.babele` are absent or objects |
| Advancements.StampFields | scripts/converter.js:157-158 | the stamps store the name, and the description or else the hint, under `flags.babele`, and change no other field of the entry or of its `flags` |
| Advancements.AdvStepOk | scripts/converter.js:150-158 | one entry throws exactly when the title read, the value read or a stamp throws |
| Advancements.AdvStepFields | scripts/converter.js:149-159 | an unmatched entry is untouched; a matched one gets the new title and hint, stamps them under `flags.babele`, and keeps its other fields |
| Advancements.AdvFromOk | scripts/converter.js:149-159 | the loop throws exactly when the step of one of its entries does |
| Advancements.AdvFromValues | scripts/converter.js:149-159 | a loop that succeeds keeps the length and replaces every entry by its step, where it stands |
| Advancements.AdvancementsMergeFields | scripts/converter.js:143-160 | a no-op without an advancement array and a truthy table; otherwise each entry is updated and the list is written back where it was found. Under `system.advancement`, the rest of `system` and the top-level `advancement` are kept; at the top level, `system` is kept; no other field changes |
| Advancements.AdvancementsMergeOnList | scripts/converter.js:143-147 | on an array target, the form lines 181-182 pass, the call finds no list and neither throws nor changes anything |
| Advancements.AdvancementsMergeOk | scripts/converter.js:143-160 | the call throws exactly when a table read or an entry step does |
| Flags.MergeFrom | scripts/converter.js:17 | merging into an object gives an object that keeps every key it had |
| Flags.MergeFromGet | scripts/converter.js:17 | a translated key holds the recursive merge when both sides are objects, else the translated value; other keys keep theirs; the keys are those of both sides |
| Flags.SelfMerge | scripts/converter.js:17 | merging an object into itself gives it back |
| Flags.MergeIdempotent | scripts/converter.js:17 | merging the same object twice equals merging it once |
| Flags.SafeMergeFlagsOk | scripts/converter.js:16-18 | the flag merge throws exactly on non-object arguments, or on keys written onto an array |
| Flags.SafeMergeFlagsNothing | scripts/converter.js:16-18 | falsy translation flags give the source flags back |
| Flags.SafeMergeFlagsFields | scripts/converter.js:16-18 | every source flag survives, translated leaves win, and two objects merge recursively |
| Flags.SafeMergeFlagsIdempotent | scripts/converter.js:16-18 | merging the same translation flags twice equals merging them once |
| Entity.SafeMergeEntity | scripts/converter.js:163-204 | the keyed loop and the three final passes compute `EntityMerge` |
| Entity.KeyedPass | scripts/converter.js:167-188 | the keyed loop over a copy of the source computes `KeyedFold` |
| Entity.ApplyKey | scripts/converter.js:167-188 | the loop body computes `EntryStep` |
| Entity.ApplyEffects | scripts/converter.js:170 | the `effects` branch computes `EffectsEntry` |
| Entity.ApplyItems | scripts/converter.js:171-174 | the `items`/`features`/`embeddedItems` branch computes `ItemsEntry` |
| Entity.ApplyActivities | scripts/converter.js:175-179 | the activities branch computes `ActivitiesEntry` |
| Entity.ApplySystemActivities | scripts/converter.js:177-178 | the write under `system` computes `SystemActivities` |
| Entity.ApplyAdvancement | scripts/converter.js:180-184 | the advancement branch computes `AdvancementEntry` |
| Entity.ApplySystemAdvancement | scripts/converter.js:182-183 | the write under `system` computes `SystemAdvancement` |
| Entity.ApplyFlags | scripts/converter.js:185 | the `flags` branch computes `FlagsEntry` |
| Entity.ApplyFinalEffects | scripts/converter.js:191-193 | the final effects pass computes `FinalEffects` |
| Entity.ApplyFinalAdvancement | scripts/converter.js:195-197 | the final advancement pass computes `FinalAdvancement` |
| Entity.ApplyFinalActivities | scripts/converter.js:199-201 | the final activities pass computes `FinalActivities` |
| Entity.Present | scripts/converter.js:168 | the entries kept have no null or undefined value |
| Entity.KeyedFoldSkipsNull | scripts/converter.js:168 | entries with a null or undefined value are skipped |
| Entity.EffectsEntryFrame | scripts/converter.js:170 | the `effects` step changes only `effects` |
| Entity.ItemsEntryFrame | scripts/converter.js:171-174 | the items step changes only `items` |
| Entity.FlagsEntryFrame | scripts/converter.js:185 | the `flags` step changes only `flags` |
| Entity.ActivitiesEntryFrame | scripts/converter.js:175-179 | the activities step changes only `activities` and `system` |
| Entity.AdvancementEntryFields | scripts/converter.js:180-184 | the advancement step writes `undefined` to `advancement`, and to `system.advancement` under a truthy `system`, and changes nothing else |
| Entity.EntryStepFrame | scripts/converter.js:167-188 | a keyed step changes only the fields its key rewrites |
| Entity.KeyedFoldFrame | scripts/converter.js:167-188 | a field no translation key rewrites leaves the keyed pass unchanged |
| Entity.EntryStepOverwrites | scripts/converter.js:187 | any other key, `name` and `system` included, overwrites the output field wholesale |
| Entity.FlagsEntryFields | scripts/converter.js:185 | a `flags` entry keeps every source flag, and translated leaves win |
| Entity.AdvancementEntryLoses | scripts/converter.js:181-182 | a top-level `advancement` entry sets `advancement`, and `system.advancement` under a `system`, to undefined |
| Entity.KeyedFoldLast | scripts/converter.js:167-188 | the keyed pass over `ps + [e]` is the pass over `ps`, then the step for `e` |
| Entity.FinalEffectsFields | scripts/converter.js:191-193 | the final effects pass changes only `effects`, setting it to the merge of the source's and the translation's effects |
| Entity.FinalAdvancementFields | scripts/converter.js:195-197 | the final advancement pass changes only `system` and `advancement`, and nothing without an advancement array |
| Entity.FinalActivitiesFields | scripts/converter.js:199-201 | the final activities pass changes only `system.activities`, recomputing it from the source's activities |
| Entity.EntityFalsy | scripts/converter.js:164 | a falsy translation returns the very source |
| Entity.EntityEffects | scripts/converter.js:191-193 | with source or translated effects, the output's effects are exactly `safeMergeEffects(source.effects, translation.effects)` |
| Entity.EntityActivitiesRecomputed | scripts/converter.js:199-200 | `system.activities` is recomputed from the source's, and discards the keyed pass's write |
| Entity.Unnamed | scripts/converter.js:167-168 | a translation none of whose entries names `effects`, `system` or `advancement` reads as undefined there |
| Entity.AdvancementsUntouched | scripts/converter.js:195-197 | with no table in the translation, the final advancement pass is a no-op |
| Entity.FinalActivitiesIdle | scripts/converter.js:199-201 | without `translation.system.activities`, the final pass writes the source's activities back over themselves and changes nothing |
| Entity.EntityIsolates | scripts/converter.js:163-204 | a translation that mentions none of `effects`, `system` and `advancement` (such as `{name: x}`) leaves `system` and `advancement` as the source has them, and `effects` too when it is an array or has no truthy `length` |
| Entity.EntityEmptyTranslation | scripts/converter.js:163-204 | `{}` hands back an object source unchanged when its `effects` is an array or has no truthy `length` |
| Entity.EntityKeeps | scripts/converter.js:163-204 | a top-level field no translation key rewrites, other than `effects`, `system` and `advancement`, is the source's; `Entity.EntityIsolates` covers those three |
| Entity.KeyedLosesAdvancement | scripts/converter.js:180-184 | a translation ending in a non-null `advancement` leaves no advancement list after the keyed pass |
| Entity.EffectsKeepNoAdvancement | scripts/converter.js:191-193 | the final effects pass brings no advancement list back |
| Entity.AdvancementKeepsNoAdvancement | scripts/converter.js:195-197 | without an advancement list the final advancement pass changes nothing |
| Entity.ActivitiesKeepNoAdvancement | scripts/converter.js:199-201 | the final activities pass brings no advancement list back |
| Entity.FinalKeepsNoAdvancement | scripts/converter.js:191-201 | the final passes bring no advancement list back |
| Entity.EntityLosesAdvancement | scripts/converter.js:181-182 | such a translation leaves the output with `advancement`, and `system.advancement`, undefined |
| Entity.EntityNullishSource | scripts/converter.js:163-204 | a null or undefined source with a truthy translation always throws `TypeError` |
| Entity.NullishKeyedFold | scripts/converter.js:167-188 | over a nullish source the keyed pass either skips every entry or throws `TypeError` |

## Left out

- The `Hooks.once("init")` wrapper, the `game.babele` check, converter registration and console logging (scripts/converter.js:6-10, 206-219): these are host-runtime plumbing. babele-register.js is not part of this model.
- References and aliasing: the model uses values throughout. A translation object inserted by reference (scripts/converter.js:69, 118-119, 134, 187) is not shared with the output. So if a translation has a `system` key before `activities`, line 177 writes into the translation's own `system` object, and line 199 later reads it. The model does not reproduce that.
- In-place mutation of the source by the keyed pass. The advancement calls at lines 181-182 receive `source.advancement || []` or `source.system.advancement || []`. On an array, as these normally are, the call reads no list at line 145 and returns at line 147, so it is a no-op (`Advancements.AdvancementsMergeOnList`). Only when the source holds a non-array object there, one that itself has an array under `system.advancement` or `advancement`, would the call update that object of the source in place. The model computes that update and drops it (`Entity.AdvancementEntry`). Its possible exceptions are kept.
- `deepClone` is a value copy. Dates, class instances and functions do not arise in JSON values. Foundry's `deepClone` throws on objects nested more than 100 levels deep. The model's copy never throws.
- Inherited properties are never looked up. `Get` reads an object's own keys only. An activity key such as `constructor` makes `out[k]` at line 134 truthy in JavaScript, through `Object.prototype`. JavaScript then takes the rename branch of line 135, which in strict mode throws on the read-only `name` of a function. The model sees a missing entry and inserts `v`.
- Strict mode is assumed. Nothing in scripts/converter.js asks for it: there is no `"use strict"`, no `import` and no `export`. Whether it applies depends on how the host loads the script. In sloppy mode, a write of a property onto a truthy primitive is silently ignored. An example is `out.system.activities = …` when `out.system` is a string. `Write` throws `TypeError` there instead.
- `mergeObject` extras are not modelled: dotted-key expansion at depth 0, `-=` deletion keys, the option flags, and type enforcement. An object inserted by `mergeObject` is the value itself, not a fresh copy.
- Array index properties: `Get` on an array or string answers only `length`. Writing a named property onto an array ends with `ArrayProperty`, where JavaScript would store it. This covers `out[k] = v` on an array source and a flag merge into an array.
- `getProperty` walks plain objects only. It does not try the whole dotted key as a literal property first, as some Foundry versions do.
- Numbers are integers. Fractions and `NaN` are not modelled.
- JavaScript enumerates integer-like keys first. The model enumerates every key in insertion order.
- Equality between JSON values is structural. JavaScript's `!==` on objects compares identity. This only matters at line 154 when `value.name` is an object, and then both sides differ either way.
- `toLowerCase` is ASCII only. `trim` uses the ECMAScript white-space set.
- Collections.MergeKeeps: states growth by at most one element per entry. That an entry appends exactly when it misses is stated per entry by `Collections.StepHit` and `Collections.StepMiss`.
- Flags.SafeMergeFlagsFields: stated for object arguments with a well-formed translation. Array translations are covered only by `Flags.SafeMergeFlagsOk`.
- Flags.SafeMergeFlagsIdempotent: requires translation flags that are well formed at every depth.
- Entity.EntityLosesAdvancement: stated for a translation whose last entry is `advancement`. A later entry (for example `system`) can write the field again.
