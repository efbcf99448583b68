# NPC body parts and the sky, modelled in Dafny

This project models two pieces of the OpenMW renderer.

**The NPC body-part table** (`apps/openmw/mwrender/npcanimation.cpp`).
An NPC's body has 27 part types, from the head (0) to the tail (26). For each
part, `NpcAnimation` keeps two parallel arrays:

- `mPartslots` records the equipment group that owns the part. A group is the
  inventory slot its item is worn in, or -1 for none.
- `mPartPriorities` records the priority of the part's current occupant:
  0 free, 1 base body, 2 clothing, 3 armor, 4 skirt, 5 robe.

An occupant is only ever displaced by one of strictly higher priority.
`updateParts` does three things in order:

1. It compares twelve cached slot iterators against the inventory and frees
   the group of every slot whose item changed.
2. If anything changed, it re-adds every worn item's group, in a fixed order.
   A robe also claims twelve more parts and a skirt three.
3. It fills every part that is still free with the race's base-body mesh, if
   the content store has one. The search tries the female ids (for a female
   NPC) before the male ones, and each time the first name before the second.

Module `NpcParts` defines the table as a value, with functions for removing a
part, reserving a part and removing a group. Module `NpcUpdate` defines the
cache refresh, the equipping order, the base-body search and the whole of
`updateParts` as functions, and proves lemmas about them. In module
`NpcRender`, class `NpcAnimation` holds the two arrays and the cache. Each of
its methods is proved to leave the arrays equal to the corresponding
function applied to the table before the call.

**The sky** (`apps/openmw/mwrender/sky.cpp`).

- Module `Moons` covers the moon phases. It maps a phase to the 0..4 integer
  that scripts read (`getPhaseInt`) and to the texture name `setPhase` loads.
  Its `Moon` class carries the phase, the two textures, the transparency, the
  shadow blend and the two colours.
- Module `SkyCull` covers the cull callback. The callback switches off, in the
  frustum's 32-bit result mask, every plane past the standard four (plus near
  and far when the culling mode uses them).
- Module `Sky` covers `SkyManager`, as a state machine:
  - `create` runs once and builds the sun and both moons;
  - `setEnabled` creates the sky on first enable and shows or hides the root;
  - `createRain` and `destroyRain` build and drop the rain objects;
  - `setWeather` does nothing before creation. After it, `setWeather` updates
    the rain, particle effect, clouds, colours, stars, night node, faders and
    the moons' transparency;
  - the moon and sun setters do nothing before creation.

  Each part of the state has a function saying what `setWeather` does to it.
  The class's methods are proved against those functions, and lemmas prove
  the invariant and the idempotence of applying a weather.

## Model

| member | source | states |
|---|---|---|
| NpcParts.EmptyTable | apps/openmw/mwrender/npcanimation.cpp:52-56 | every part starts with no owner (-1) and priority 0 |
| NpcParts.Removed | apps/openmw/mwrender/npcanimation.cpp:426-537 | the removed part is free afterwards; every other part keeps its owner and priority |
| NpcParts.Reserved | apps/openmw/mwrender/npcanimation.cpp:539-547 | the part's priority becomes the larger of old and new; the group takes the part exactly when the new priority is strictly higher, and otherwise the table is unchanged; other parts are untouched |
| NpcParts.GroupRemoved | apps/openmw/mwrender/npcanimation.cpp:549-556 | exactly the parts owned by the group become free, the rest keep their entries, and a real group owns nothing afterwards |
| NpcParts.ReservedAllEffect | apps/openmw/mwrender/npcanimation.cpp:646-663 | after reserving a list of parts for a group, each listed part has the larger priority and belongs to the group exactly where it won; unlisted parts are untouched |
| NpcParts.ReservedAllKeeps | apps/openmw/mwrender/npcanimation.cpp:539-547 | reserving never lowers a priority and never touches a part whose occupant is at least as high |
| NpcParts.GroupsRemovedEffect | apps/openmw/mwrender/npcanimation.cpp:122-197 | removing several real groups frees exactly the parts they owned and leaves the others alone |
| NpcParts.EmptyWellFormed | apps/openmw/mwrender/npcanimation.cpp:52-56 | the initial table pairs every owner with a legal priority |
| NpcParts.RemovedWellFormed | apps/openmw/mwrender/npcanimation.cpp:426-537 | freeing a part keeps every (owner, priority) pair legal |
| NpcParts.ReservedAllWellFormed | apps/openmw/mwrender/npcanimation.cpp:646-663 | adding a group at a legal (group, priority) pair keeps the table legal |
| NpcParts.GroupsRemovedWellFormed | apps/openmw/mwrender/npcanimation.cpp:122-197 | removing groups keeps the table legal |
| NpcUpdate.LookupPart | apps/openmw/mwrender/npcanimation.cpp:646-663 | the mesh lookup is the same first-present search as the base body's (`FirstFound`) over the candidate ids: the female id first, for a female NPC only, then the male id; so a female NPC uses the female mesh if the store has it, otherwise the male one, and there is no result exactly when neither applicable id is in the store |
| NpcUpdate.TrackedSlots | apps/openmw/mwrender/npcanimation.cpp:122-197 | the twelve apparel slots are checked, except the boots for a beast; each slot once, none of them -1 |
| NpcUpdate.ChangedSlots | apps/openmw/mwrender/npcanimation.cpp:122-197 | a slot is reported exactly when it is checked and its cached item differs from the inventory's |
| NpcUpdate.Recached | apps/openmw/mwrender/npcanimation.cpp:125-130 | after one check the slot holds the inventory's item and the other slots are unchanged |
| NpcUpdate.RefreshedCache | apps/openmw/mwrender/npcanimation.cpp:122-197 | every checked slot holds the inventory's item; unchecked slots (a beast's boots) keep the cached one |
| NpcUpdate.EquipAllWellFormed | apps/openmw/mwrender/npcanimation.cpp:199-324 | re-adding all worn groups in source order keeps every (owner, priority) pair legal |
| NpcUpdate.EquipRestKeeps | apps/openmw/mwrender/npcanimation.cpp:233-324 | nothing added after the skirt displaces a robe or skirt part, the hair aside |
| NpcUpdate.RobeCoversItsParts | apps/openmw/mwrender/npcanimation.cpp:201-219 | a worn robe owns every part it claims, at priority 5, once all groups are added |
| NpcUpdate.SkirtCoversItsParts | apps/openmw/mwrender/npcanimation.cpp:221-231 | a worn skirt's claimed parts end at priority 4 or more, owned by the skirt or the robe |
| NpcUpdate.Candidates | apps/openmw/mwrender/npcanimation.cpp:362-376 | the search tries four ids for a female NPC and two for a male one |
| NpcUpdate.FirstFound | apps/openmw/mwrender/npcanimation.cpp:362-376 | the search finds nothing exactly when no candidate id is in the store; otherwise it returns the record of the first candidate the store has |
| NpcUpdate.BaseSearchOrder | apps/openmw/mwrender/npcanimation.cpp:362-376 | the search order is `_f_` name0, `_f_` name1 (female only), then `_m_` name0, `_m_` name1 |
| NpcUpdate.BaseListAddedEffect | apps/openmw/mwrender/npcanimation.cpp:357-381 | a listed part gets the base body (no group, priority 1) exactly when it was free and its mesh is found; every other part is left as it was |
| NpcUpdate.BasePartsFacts | apps/openmw/mwrender/npcanimation.cpp:331-355 | the base-body list names each part once, and names neither the head nor the hair |
| NpcUpdate.BaseBodyNeverDisplaces | apps/openmw/mwrender/npcanimation.cpp:326-381 | the base body never displaces anything: occupied parts keep their entry, and a free part stays free or gets the base body |
| NpcUpdate.BaseBodyHeadAndHair | apps/openmw/mwrender/npcanimation.cpp:326-329 | the head always ends up occupied; the hair gets the base body unless something above the base body holds the head, and then a free hair stays free |
| NpcUpdate.BaseBodyFillsFoundParts | apps/openmw/mwrender/npcanimation.cpp:357-381 | a listed free part ends up occupied exactly when its mesh search succeeds |
| NpcUpdate.BaseBodyWellFormed | apps/openmw/mwrender/npcanimation.cpp:326-381 | adding the base body keeps the table legal |
| NpcUpdate.UpdatedTableHeadAndHair | apps/openmw/mwrender/npcanimation.cpp:120-382 | after `updateParts` the head is occupied, and the hair is too whenever the head carries at most the base body |
| NpcUpdate.UpdatedTableWellFormed | apps/openmw/mwrender/npcanimation.cpp:120-382 | `updateParts` keeps a legal table legal |
| NpcRender.Lower | apps/openmw/mwrender/npcanimation.cpp:70-71 | lower-casing keeps the length, leaves no upper-case letter, changes exactly the upper-case letters, and turns each into its lower-case counterpart (code + 32) |
| NpcRender.LowerKeepsPrefix | apps/openmw/mwrender/npcanimation.cpp:70-71 | the body race id always starts with `b_n_`: the lower-cased id is `b_n_` followed by the lower-cased race name |
| NpcRender.NpcAnimation.constructor | apps/openmw/mwrender/npcanimation.cpp:23-118 | all parts start free, the race id is lower-cased, and one `updateParts` runs from an empty cache; the table is legal and the head occupied |
| NpcRender.NpcAnimation.RemoveIndividualPart | apps/openmw/mwrender/npcanimation.cpp:426-537 | the arrays become `Removed` of the old table |
| NpcRender.NpcAnimation.ReserveIndividualPart | apps/openmw/mwrender/npcanimation.cpp:539-547 | the arrays become `Reserved` of the old table |
| NpcRender.NpcAnimation.AddOrReplaceIndividualPart | apps/openmw/mwrender/npcanimation.cpp:558-644 | it reports success exactly when the new priority beats the occupant's, and the arrays become `Reserved` of the old table |
| NpcRender.NpcAnimation.RemovePartGroup | apps/openmw/mwrender/npcanimation.cpp:549-556 | the loop over all 27 parts leaves the arrays equal to `GroupRemoved` of the old table |
| NpcRender.NpcAnimation.AddPartGroup | apps/openmw/mwrender/npcanimation.cpp:646-663 | the loop over the item's part references leaves the arrays equal to `ReservedAll` of the old table |
| NpcRender.NpcAnimation.ReserveParts | apps/openmw/mwrender/npcanimation.cpp:208-219 | the robe's or skirt's extra reservations leave the arrays equal to `ReservedAll` of the old table |
| NpcRender.NpcAnimation.WearSlot | apps/openmw/mwrender/npcanimation.cpp:240-263 | one item's group is added at its priority, if the slot holds an item |
| NpcRender.NpcAnimation.CheckSlot | apps/openmw/mwrender/npcanimation.cpp:125-130 | it reports a change exactly when the cached item differs; it re-caches the slot and frees its group only then |
| NpcRender.NpcAnimation.RefreshEquipment | apps/openmw/mwrender/npcanimation.cpp:122-197 | `apparelChanged` holds exactly when some tracked slot changed; the cache is refreshed and the changed groups freed |
| NpcRender.NpcAnimation.CheckSlots | apps/openmw/mwrender/npcanimation.cpp:122-197 | checking distinct slots in order equals the refreshed cache and the removal of the changed groups |
| NpcRender.NpcAnimation.EquipApparel | apps/openmw/mwrender/npcanimation.cpp:199-324 | the arrays become `EquipAll` of the old table for the cached items |
| NpcRender.NpcAnimation.EquipArmorPieces | apps/openmw/mwrender/npcanimation.cpp:233-263 | helmet (after removing the hair), cuirass, greaves and pauldrons are added at priority 3 |
| NpcRender.NpcAnimation.EquipLimbPieces | apps/openmw/mwrender/npcanimation.cpp:265-324 | boots by record type (not for beasts), gloves, shirt and pants are added at their priorities |
| NpcRender.NpcAnimation.FindBaseBodyPart | apps/openmw/mwrender/npcanimation.cpp:362-376 | the do-while search returns the record of the first candidate id the store has, in search order |
| NpcRender.NpcAnimation.AddBaseBody | apps/openmw/mwrender/npcanimation.cpp:326-381 | the arrays become `BaseBody` of the old table |
| NpcRender.NpcAnimation.AddHeadAndHair | apps/openmw/mwrender/npcanimation.cpp:326-329 | the head and hair steps of the base body |
| NpcRender.NpcAnimation.AddBaseList | apps/openmw/mwrender/npcanimation.cpp:357-381 | the loop over the base-body list leaves the arrays equal to `BaseListAdded` of the old table |
| NpcRender.NpcAnimation.AddBaseEntry | apps/openmw/mwrender/npcanimation.cpp:358-380 | a free part gets the base body only when its search finds a mesh |
| NpcRender.NpcAnimation.UpdateParts | apps/openmw/mwrender/npcanimation.cpp:120-382 | the cache is refreshed, the arrays become `UpdatedTable` of the old table and cache, a legal table stays legal, and the head is occupied |
| SkyCull.MaskAt | apps/openmw/mwrender/sky.cpp:312-322 | the shifting mask for plane i has exactly bit i set (none once shifted out) |
| SkyCull.ShiftLeft | apps/openmw/mwrender/sky.cpp:322 | `<< 1` moves every bit up one place and clears bit 0 |
| SkyCull.AndNot | apps/openmw/mwrender/sky.cpp:319 | `x & ~m` keeps exactly the bits of x not set in m |
| SkyCull.StandardPlanes | apps/openmw/mwrender/sky.cpp:306-310 | four planes, plus one for near-plane and one for far-plane culling: 4 to 6 |
| SkyCull.CullResultMask | apps/openmw/mwrender/sky.cpp:306-323 | the loop leaves the result mask with the bits of planes from the standard count up to the plane count cleared |
| SkyCull.ClearedMeaning | apps/openmw/mwrender/sky.cpp:312-323 | standard planes and bits past the plane list keep their value, extra planes are cleared, and no bit is ever set |
| SkyCull.NothingExtra | apps/openmw/mwrender/sky.cpp:312-323 | with no plane past the standard ones the mask is unchanged |
| SkyCull.ClearedIdempotent | apps/openmw/mwrender/sky.cpp:312-323 | running the callback on its own result changes nothing |
| SkyCull.ToNatBound | apps/openmw/mwrender/sky.cpp:312-322 | an n-bit word is below 2^n, so the model's words are the 32-bit integers |
| SkyCull.MaskValue | apps/openmw/mwrender/sky.cpp:312-322 | the loop's `mask` is 1 shifted left i times as an integer: 2^i below 32 and 0 once shifted out |
| SkyCull.CullingBitValues | apps/openmw/mwrender/sky.cpp:306-312 | the mask starts at 0x1, and the culling-mode bits tested are 0x2 (near) and 0x4 (far) |
| SkyCull.ShiftValue | apps/openmw/mwrender/sky.cpp:322 | `ShiftLeft` is `<<= 1` on 32-bit values: twice the value modulo 2^32 |
| Moons.PhaseInt | apps/openmw/mwrender/sky.cpp:983-994 | the result is in 0..4; it is 0 exactly for new and unspecified, and 4 exactly for full |
| Moons.PhaseIntIgnoresDirection | apps/openmw/mwrender/sky.cpp:983-994 | two phases give the same integer exactly when they are equal or mirror images (waxing vs waning) |
| Moons.SuffixSpellsPhaseInt | apps/openmw/mwrender/sky.cpp:1077-1084 | a texture suffix spells the phase integer: new/full, or one/half/three lit quarters plus `_wax`/`_wan` |
| Moons.MoonPrefixOf | apps/openmw/mwrender/sky.cpp:1072-1075 | the inverse of the moon-name prefix the texture name is built with (the source has no parser): a recognised texture body really starts with that moon's name |
| Moons.ParseSuffixRoundTrip | apps/openmw/mwrender/sky.cpp:1077-1084 | every phase suffix reads back as its phase |
| Moons.ParseBodyRoundTrip | apps/openmw/mwrender/sky.cpp:1070-1086 | a moon name followed by a phase suffix reads back as that moon and phase |
| Moons.PhaseTextureRoundTrip | apps/openmw/mwrender/sky.cpp:1070-1086 | every phase texture name reads back as its moon and phase |
| Moons.PhaseTextureInjective | apps/openmw/mwrender/sky.cpp:1070-1086 | different moons or phases never share a phase texture |
| Moons.NewMoon | apps/openmw/mwrender/sky.cpp:930-940 | a newly constructed moon has matching textures, is at full (phase integer 4) and is shown |
| Moons.StateApplied | apps/openmw/mwrender/sky.cpp:952-971 | after `setState` the textures match the new phase, phase, alpha and shadow blend are the state's, and the kind, colours and visibility are kept |
| Moons.Moon.constructor | apps/openmw/mwrender/sky.cpp:930-940 | a new moon's fields are `NewMoon` of its kind: set to full with matching textures, shown, transparency and shadow blend 1, both colours white |
| Moons.Moon.SetPhase | apps/openmw/mwrender/sky.cpp:1064-1093 | an unchanged phase does nothing; otherwise exactly the phase and the two textures change, to the textures of the moon and the new phase |
| Moons.Moon.SetVisible | apps/openmw/mwrender/sky.cpp:451 | the fields are the old ones with only the visibility replaced |
| Moons.Moon.SetState | apps/openmw/mwrender/sky.cpp:952-971 | the fields become `StateApplied` of the old ones: the state's phase with its textures, alpha and shadow blend; colours and visibility kept |
| Moons.Moon.AdjustTransparency | apps/openmw/mwrender/sky.cpp:947-950 | the fields are the old ones with only the transparency multiplied by the ratio |
| Moons.Moon.SetColour | apps/openmw/mwrender/sky.cpp:978-981 | the fields are the old ones with only the moon colour replaced |
| Moons.Moon.SetAtmosphereColour | apps/openmw/mwrender/sky.cpp:973-976 | the fields are the old ones with only the atmosphere colour replaced |
| Sky.RainLifecycle | apps/openmw/mwrender/sky.cpp:1327-1397 | creating does nothing when a rain node exists and destroying does nothing when none does; both keep the effect and the rain parameters; creating twice is creating once, and destroying twice is destroying once; after creation all rain objects exist (a new fader at alpha 1); after destruction none do |
| Sky.RainWeatheredEffect | apps/openmw/mwrender/sky.cpp:1478-1496 | after `setWeather` the rain effect is the weather's, its objects exist exactly when that is non-empty, the parameters are copied and a fader holds 0.6 times the effect fade |
| Sky.ParticlesWeatheredEffect | apps/openmw/mwrender/sky.cpp:1498-1539 | the particle effect is the weather's, node and instance exist exactly when it is non-empty, a new effect has the scene's faders, an unchanged one keeps its own, and every fader holds the effect fade |
| Sky.CloudsCreatedValid | apps/openmw/mwrender/sky.cpp:1172-1179 | after `create` the first cloud layer is opaque and the second transparent and hidden, matching a zero blend factor |
| Sky.CloudsWeatheredEffect | apps/openmw/mwrender/sky.cpp:1541-1598 | the first layer shows the weather's texture at opacity 1-b, the second has opacity b and is shown exactly when b > 0, and a non-empty next texture is applied; the emission follows a changed fog colour, brightened by 0.13 |
| Sky.AtmosphereWeatheredEffect | apps/openmw/mwrender/sky.cpp:1584-1596 | sky and fog colours become the weather's; the atmosphere emission changes only with a changed sky colour |
| Sky.NightWeatheredEffect | apps/openmw/mwrender/sky.cpp:1606-1614 | at night the stars' opacity is the night fade times the glare view; by day it is kept; the night node is shown exactly at night |
| Sky.MoonTinted | apps/openmw/mwrender/sky.cpp:1584-1591 | a moon's atmosphere colour becomes the sky colour when that changed, and nothing else of the moon changes |
| Sky.MoonWeathered | apps/openmw/mwrender/sky.cpp:1584-1601 | under `setWeather` a moon's transparency is scaled by the glare view and its atmosphere colour follows a changed sky colour; nothing else changes and consistent textures stay consistent |
| Sky.InitialState | apps/openmw/mwrender/sky.cpp:1096-1134 | the constructed sky is not created, is enabled, has its root shown, and satisfies the invariant |
| Sky.CreatedValid | apps/openmw/mwrender/sky.cpp:1136-1192 | `create` establishes the invariant |
| Sky.EnabledProperties | apps/openmw/mwrender/sky.cpp:1447-1455 | enabling keeps the invariant, creates the sky exactly on the first enable, never undoes creation, and makes the root follow the flag; on a created sky only the flags change |
| Sky.WeatheredValid | apps/openmw/mwrender/sky.cpp:1474-1620 | `setWeather` keeps the invariant and does nothing before creation |
| Sky.WeatheredIdempotent | apps/openmw/mwrender/sky.cpp:1474-1620 | applying the same weather twice gives the same sky state as once |
| Sky.SkyManager.constructor | apps/openmw/mwrender/sky.cpp:1096-1134 | the fields form the initial state, with no moons yet |
| Sky.SkyManager.Create | apps/openmw/mwrender/sky.cpp:1136-1192 | marks the sky created, shows the sun, builds two fresh moons whose fields are `NewMoon` of their kind, resets the cloud and night updaters, and takes the script colour; the invariant holds |
| Sky.SkyManager.CreateMoons | apps/openmw/mwrender/sky.cpp:1163-1164 | two distinct fresh moons whose fields are exactly those of a newly constructed Masser and Secunda |
| Sky.SkyManager.SetEnabled | apps/openmw/mwrender/sky.cpp:1447-1455 | the state becomes `EnabledState` of the old one; existing moons stay, and the first enable builds fresh moons whose fields are `NewMoon` of their kind |
| Sky.SkyManager.CreateRain | apps/openmw/mwrender/sky.cpp:1327-1385 | the rain becomes `RainCreated` of the old rain |
| Sky.SkyManager.DestroyRain | apps/openmw/mwrender/sky.cpp:1387-1397 | the rain becomes `RainDestroyed` of the old rain |
| Sky.SkyManager.UpdateRain | apps/openmw/mwrender/sky.cpp:1478-1496 | the rain becomes `RainApplied` of the old rain |
| Sky.SkyManager.UpdateParticles | apps/openmw/mwrender/sky.cpp:1498-1539 | the particles become `ParticlesApplied` of the old particles |
| Sky.SkyManager.UpdateClouds | apps/openmw/mwrender/sky.cpp:1541-1598 | the clouds become `CloudsWeathered` of the old clouds |
| Sky.SkyManager.UpdateColours | apps/openmw/mwrender/sky.cpp:1584-1596 | the colours become `AtmosphereWeathered`; each moon's fields become `MoonTinted` of the old ones: only the atmosphere colour changes, to a changed sky colour |
| Sky.SkyManager.UpdateNight | apps/openmw/mwrender/sky.cpp:1606-1619 | stars and night node as `NightWeathered`; the rain fader and every particle fader take their faded alpha |
| Sky.SkyManager.SetWeather | apps/openmw/mwrender/sky.cpp:1474-1620 | before creation nothing changes, neither the manager's own state nor any existing moon object; afterwards each part of the state takes its weathered value, each moon's fields become `MoonWeathered` of the old ones, and the invariant holds |
| Sky.SkyManager.ApplyWeather | apps/openmw/mwrender/sky.cpp:1478-1619 | on a created sky every record takes its weathered value and each moon's fields become `MoonWeathered` of the old ones |
| Sky.SkyManager.UpdateEffects | apps/openmw/mwrender/sky.cpp:1478-1539 | rain and particles take their applied values |
| Sky.SkyManager.UpdateSky | apps/openmw/mwrender/sky.cpp:1541-1601 | clouds and colours take their weathered values and each moon's fields become `MoonWeathered` of the old ones |
| Sky.SkyManager.UpdateMoons | apps/openmw/mwrender/sky.cpp:1584-1601 | colours take their weathered values and each moon's fields become `MoonWeathered` of the old ones |
| Sky.SkyManager.GetMasserPhase | apps/openmw/mwrender/sky.cpp:1408-1412 | 0 before creation, Masser's phase integer after; always within 0..4 |
| Sky.SkyManager.GetSecundaPhase | apps/openmw/mwrender/sky.cpp:1414-1418 | 0 before creation, Secunda's phase integer after; always within 0..4 |
| Sky.SkyManager.SetMoonColour | apps/openmw/mwrender/sky.cpp:1457-1461 | once created, Secunda's fields are the old ones with only the moon colour replaced, by the script colour when red and white otherwise; before creation nothing changes |
| Sky.SkyManager.SunEnable | apps/openmw/mwrender/sky.cpp:1622-1627 | once created the sun is shown; nothing else changes, and before creation nothing does |
| Sky.SkyManager.SunDisable | apps/openmw/mwrender/sky.cpp:1629-1634 | once created the sun is hidden; nothing else changes, and before creation nothing does |
| Sky.SkyManager.SetSunDirection | apps/openmw/mwrender/sky.cpp:1641-1646 | once created the sun takes the direction; nothing else changes, and before creation nothing does |
| Sky.SkyManager.SetMasserState | apps/openmw/mwrender/sky.cpp:1648-1653 | once created Masser's fields become `StateApplied` of the old ones; before creation it is untouched |
| Sky.SkyManager.SetSecundaState | apps/openmw/mwrender/sky.cpp:1655-1660 | once created Secunda's fields become `StateApplied` of the old ones; before creation it is untouched |

## Left out

### NPC body parts

- Scene-graph work is not modelled. Attaching and detaching meshes, `insertBoundedPart`, entity lists and skeleton updates are left out; only the two arrays and the cache are modelled.
- `addOrReplaceIndividualPart` chooses the bone a mesh attaches to. That choice is left out, including the right and left foot cases (npcanimation.cpp:608-613), which store the mesh in the upper-arm handles. The table entries those calls write are modelled.
- `runAnimation` is left out.
- Content-store lookups that throw are not modelled: the store is a map, and a missing id is a `None`.
- `addPartGroup` looks up a mesh for each part reference (`LookupPart`). The mesh it finds is only used for attachment, which is left out. Both of its branches reserve the part in the table the same way.
- The inventory slot numbers come from `apps/openmw/mwworld/inventorystore.hpp`, which is not part of this model. The model uses `Slot_Helmet` 0 through `Slot_Robe` 11.
- The twelve copied "cached slot differs" checks are modelled as one loop over the tracked slots, in the same order.
- The groups that `updateParts` re-adds are modelled as helper methods (`EquipArmorPieces`, `EquipLimbPieces`, `WearSlot`), with the same order and priorities.
- An inventory slot is modelled as the item it holds, compared by value. This stands in for the iterator comparison.

### Sky

- Geometry, textures and drawing are not modelled:
  - scene nodes are modelled as booleans;
  - the moon's and sun's positions and orientations (the trigonometry in `setState`, `setSunDirection`'s node position) are not modelled; `SetSunDirection` records the vector;
  - texture loading and path correction are not modelled;
  - the material transparency scan that collects faders is reduced to a parameter, `faderCount`;
  - rain physics and `updateRainParameters` are not modelled;
  - the sun's colour, glare and transparency are not modelled.
- Floating-point values are modelled as reals. `Scaled` stands for a float product without rounding.
- The frustum's result mask and the culling mode are 32-bit integers in the source. The model keeps them as 32 bits, one boolean per bit. Plane indices are natural numbers.
- The shift of a C++ `int` into and past the sign bit is modelled as the bit leaving the word.
- The state of `SkyManager` is grouped into records (rain, particles, clouds, atmosphere, night). The class holds one field per record.
- The blocks of `setWeather` are modelled as helper methods (`UpdateEffects`, `UpdateSky`, `UpdateNight` and the methods they call), with the same order.
- Sky.SkyManager.SetWeather: the contract states each part of the new state separately, not as one equality over the whole state.
- Sky.WeatheredIdempotent: does not cover the moons' transparency. Every call of `setWeather` scales it again, so it is not idempotent.
- `apps/opencs/view/render/cameracontroller.cpp` is not part of this model.
