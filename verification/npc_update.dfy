/**
 * What one call of `updateParts` does to the part table, as functions:
 * refreshing the cached equipment and freeing the groups whose item changed,
 * re-adding every equipped item's group, and filling the remaining free
 * parts with the base body.
 */
module NpcUpdate {
  import opened Options
  import opened NpcParts

  datatype ItemKind = Clothing | Armor | OtherKind

  /** One body part an item covers, with the ids of its male and female meshes. */
  datatype PartReference = PartReference(part: PartType, male: string, female: string)

  /** An equipped item: its identity, record type and the parts it covers. */
  datatype Item = Item(id: nat, kind: ItemKind, parts: seq<PartReference>)

  /** The equipment: inventory slot -> item worn there (a missing key is an empty slot). */
  type Equipment = map<int, Item>

  /** A body-part record of the content store; only its mesh name is needed. */
  datatype BodyPart = BodyPart(model: string)

  /** The body-part records of the content store, by id. */
  type BodyPartStore = map<string, BodyPart>

  function SlotItem(m: Equipment, s: int): Option<Item> {
    if s in m then Some(m[s]) else None
  }

  function PartTypes(parts: seq<PartReference>): (ts: seq<PartType>)
    ensures |ts| == |parts|
    ensures forall i :: 0 <= i < |parts| ==> ts[i] == parts[i].part
  {
    seq(|parts|, i requires 0 <= i < |parts| => parts[i].part)
  }

  /**
   * The mesh record `addPartGroup` uses for one part reference: the female
   * id is searched first for a female NPC, then the male id.
   */
  function LookupPart(store: BodyPartStore, ref: PartReference, female: bool): (r: Option<BodyPart>)
    ensures female && ref.female in store ==> r == Some(store[ref.female])
    ensures (!female || ref.female !in store) && ref.male in store ==> r == Some(store[ref.male])
    ensures r == None <==> (!female || ref.female !in store) && ref.male !in store
    ensures r == FirstFound(store, (if female then [ref.female] else []) + [ref.male])
  {
    if female && ref.female in store then Some(store[ref.female])
    else if ref.male in store then Some(store[ref.male])
    else None
  }

  // ---------------------------------------------------------------------
  // Refreshing the cached equipment

  /** The slots checked for a change, in the order the checks run. */
  const ApparelSlots: seq<int> := [SlotRobe, SlotSkirt, SlotHelmet, SlotCuirass, SlotGreaves,
    SlotLeftPauldron, SlotRightPauldron, SlotBoots, SlotLeftGauntlet, SlotRightGauntlet,
    SlotShirt, SlotPants]

  /** A beast NPC never wears boots, so its boots slot is not checked. */
  function TrackedSlots(isBeast: bool): (ss: seq<int>)
    ensures forall s :: s in ss <==> s in ApparelSlots && (isBeast ==> s != SlotBoots)
    ensures forall i, j :: 0 <= i < j < |ss| ==> ss[i] != ss[j]
    ensures NoGroup !in ss
  {
    if isBeast then
      [SlotRobe, SlotSkirt, SlotHelmet, SlotCuirass, SlotGreaves, SlotLeftPauldron,
        SlotRightPauldron, SlotLeftGauntlet, SlotRightGauntlet, SlotShirt, SlotPants]
    else ApparelSlots
  }

  /** The slots of `ss` whose item differs between the cache and the inventory, in order. */
  function ChangedSlots(cache: Equipment, inv: Equipment, ss: seq<int>): (r: seq<int>)
    ensures forall s :: s in r <==> s in ss && SlotItem(cache, s) != SlotItem(inv, s)
    decreases |ss|
  {
    if ss == [] then []
    else
      var s := ss[|ss| - 1];
      ChangedSlots(cache, inv, ss[..|ss| - 1]) + (if SlotItem(cache, s) != SlotItem(inv, s) then [s] else [])
  }

  /** The cache after one check: slot `s` now holds the inventory's item. */
  function Recached(cache: Equipment, inv: Equipment, s: int): (r: Equipment)
    ensures forall x :: SlotItem(r, x) == if x == s then SlotItem(inv, x) else SlotItem(cache, x)
  {
    if s in inv then cache[s := inv[s]] else cache - {s}
  }

  /** Two equipment maps that agree on every slot are the same map. */
  lemma SameSlotsSameMap(a: Equipment, b: Equipment)
    requires forall s :: SlotItem(a, s) == SlotItem(b, s)
    ensures a == b
  {
    forall s ensures s in a <==> s in b {
      assert SlotItem(a, s) == SlotItem(b, s);
    }
    assert a.Keys == b.Keys;
    forall s | s in a ensures a[s] == b[s] {
      assert SlotItem(a, s) == SlotItem(b, s);
    }
  }

  /**
   * Checking the slots of `ss` one at a time, in order, builds up the
   * refreshed cache and the list of changed slots.
   */
  lemma RefreshStep(cache: Equipment, inv: Equipment, ss: seq<int>, i: nat)
    requires i < |ss| && forall j, k :: 0 <= j < k < |ss| ==> ss[j] != ss[k]
    ensures SlotItem(RefreshedCache(cache, inv, ss[..i]), ss[i]) == SlotItem(cache, ss[i])
    ensures RefreshedCache(cache, inv, ss[..i + 1]) == Recached(RefreshedCache(cache, inv, ss[..i]), inv, ss[i])
    ensures ChangedSlots(cache, inv, ss[..i + 1]) ==
      ChangedSlots(cache, inv, ss[..i]) + (if SlotItem(cache, ss[i]) != SlotItem(inv, ss[i]) then [ss[i]] else [])
  {
    assert ss[i] !in ss[..i];
    assert forall x :: x in ss[..i + 1] <==> x in ss[..i] || x == ss[i];
    SameSlotsSameMap(RefreshedCache(cache, inv, ss[..i + 1]), Recached(RefreshedCache(cache, inv, ss[..i]), inv, ss[i]));
    assert ss[..i + 1][..i] == ss[..i];
  }

  /** The cache after the checks of `ss`: each checked slot now holds the inventory's item. */
  function RefreshedCache(cache: Equipment, inv: Equipment, ss: seq<int>): (r: Equipment)
    ensures forall s :: SlotItem(r, s) == if s in ss then SlotItem(inv, s) else SlotItem(cache, s)
  {
    map s | s in cache.Keys + inv.Keys && (if s in ss then s in inv else s in cache) :: if s in ss then inv[s] else cache[s]
  }

  // ---------------------------------------------------------------------
  // Re-adding the equipped groups

  /** The parts a robe claims besides its own part list. */
  const RobeCover: seq<PartType> := [Groin, Skirt, RLeg, LLeg, RUpperarm, LUpperarm, RKnee, LKnee,
    RForearm, LForearm, RPauldron, LPauldron]

  /** The parts a skirt claims besides its own part list. */
  const SkirtCover: seq<PartType> := [Groin, RLeg, LLeg]

  /** `addPartGroup` for the item in slot `s`, if any, at priority `p`. */
  function Wear(tb: Table, items: Equipment, s: int, p: int): Table {
    if s in items then ReservedAll(tb, PartTypes(items[s].parts), s, p) else tb
  }

  function WearRobe(tb: Table, items: Equipment): Table {
    if SlotRobe in items then ReservedAll(Wear(tb, items, SlotRobe, RobePriority), RobeCover, SlotRobe, RobePriority)
    else tb
  }

  function WearSkirt(tb: Table, items: Equipment): Table {
    if SlotSkirt in items then ReservedAll(Wear(tb, items, SlotSkirt, SkirtPriority), SkirtCover, SlotSkirt, SkirtPriority)
    else tb
  }

  /** A helmet first takes the hair off, then adds its own parts. */
  function WearHelmet(tb: Table, items: Equipment): Table {
    if SlotHelmet in items then Wear(Removed(tb, Hair), items, SlotHelmet, ArmorPriority) else tb
  }

  /** Boots count as clothing or armor by their record type; other records add nothing. */
  function WearBoots(tb: Table, items: Equipment, isBeast: bool): Table {
    if !isBeast && SlotBoots in items then
      match items[SlotBoots].kind
      case Clothing => Wear(tb, items, SlotBoots, ClothingPriority)
      case Armor => Wear(tb, items, SlotBoots, ArmorPriority)
      case OtherKind => tb
    else tb
  }

  /** Gloves are clothing when their record says so and armor otherwise. */
  function WearGlove(tb: Table, items: Equipment, s: int): Table {
    if s in items then
      Wear(tb, items, s, if items[s].kind == Clothing then ClothingPriority else ArmorPriority)
    else tb
  }

  /** Every equipped item's group, in the order `updateParts` adds them. */
  function EquipAll(tb: Table, items: Equipment, isBeast: bool): Table {
    EquipRest(WearSkirt(WearRobe(tb, items), items), items, isBeast)
  }

  /** The groups added after the robe and the skirt, all at priority 3 or less. */
  function EquipRest(tb: Table, items: Equipment, isBeast: bool): Table {
    EquipLimbs(EquipArmor(tb, items), items, isBeast)
  }

  /** Helmet, cuirass, greaves and pauldrons. */
  function EquipArmor(tb: Table, items: Equipment): Table {
    var helmet := WearHelmet(tb, items);
    var cuirass := Wear(helmet, items, SlotCuirass, ArmorPriority);
    var greaves := Wear(cuirass, items, SlotGreaves, ArmorPriority);
    var lpauldron := Wear(greaves, items, SlotLeftPauldron, ArmorPriority);
    Wear(lpauldron, items, SlotRightPauldron, ArmorPriority)
  }

  /** Boots, gloves, shirt and pants. */
  function EquipLimbs(rpauldron: Table, items: Equipment, isBeast: bool): Table {
    var boots := WearBoots(rpauldron, items, isBeast);
    var lglove := WearGlove(boots, items, SlotLeftGauntlet);
    var rglove := WearGlove(lglove, items, SlotRightGauntlet);
    var shirt := Wear(rglove, items, SlotShirt, ClothingPriority);
    Wear(shirt, items, SlotPants, ClothingPriority)
  }

  // ---------------------------------------------------------------------
  // The base body

  /** One row of the base-body list: a part type and the two names its mesh may have. */
  datatype BaseEntry = BaseEntry(part: PartType, name0: string, name1: string)

  const BaseParts: seq<BaseEntry> := [
    BaseEntry(Neck, "neck", ""),
    BaseEntry(Cuirass, "chest", ""),
    BaseEntry(Groin, "groin", ""),
    BaseEntry(RHand, "hand", "hands"),
    BaseEntry(LHand, "hand", "hands"),
    BaseEntry(RWrist, "wrist", ""),
    BaseEntry(LWrist, "wrist", ""),
    BaseEntry(RForearm, "forearm", ""),
    BaseEntry(LForearm, "forearm", ""),
    BaseEntry(RUpperarm, "upper arm", ""),
    BaseEntry(LUpperarm, "upper arm", ""),
    BaseEntry(RFoot, "foot", "feet"),
    BaseEntry(LFoot, "foot", "feet"),
    BaseEntry(RAnkle, "ankle", ""),
    BaseEntry(LAnkle, "ankle", ""),
    BaseEntry(RKnee, "knee", ""),
    BaseEntry(LKnee, "knee", ""),
    BaseEntry(RLeg, "upper leg", ""),
    BaseEntry(LLeg, "upper leg", ""),
    BaseEntry(Tail, "tail", "")]

  /** The ids searched for a base-body part: female names first (for a female NPC), then male. */
  function Candidates(raceId: string, female: bool, e: BaseEntry): (cs: seq<string>)
    ensures |cs| == if female then 4 else 2
  {
    (if female then [raceId + "_f_" + e.name0, raceId + "_f_" + e.name1] else [])
      + [raceId + "_m_" + e.name0, raceId + "_m_" + e.name1]
  }

  /** The record of the first id of `ids` the store has. */
  function FirstFound(store: BodyPartStore, ids: seq<string>): (r: Option<BodyPart>)
    ensures r == None <==> forall id :: id in ids ==> id !in store
    ensures r.Some? ==> exists i :: (0 <= i < |ids| && ids[i] in store && r.value == store[ids[i]]
      && forall j :: 0 <= j < i ==> ids[j] !in store)
  {
    if ids == [] then None
    else if ids[0] in store then Some(store[ids[0]])
    else
      var rest := FirstFound(store, ids[1..]);
      assert forall id :: id in ids <==> id == ids[0] || id in ids[1..];
      if rest.Some? then
        var i :| 0 <= i < |ids[1..]| && ids[1..][i] in store && rest.value == store[ids[1..][i]]
          && forall j :: 0 <= j < i ==> ids[1..][j] !in store;
        assert ids[i + 1] in store && rest.value == store[ids[i + 1]];
        rest
      else rest
  }

  function BaseSearch(store: BodyPartStore, raceId: string, female: bool, e: BaseEntry): Option<BodyPart> {
    FirstFound(store, Candidates(raceId, female, e))
  }

  /** A free part of the list gets its base-body mesh, if the store has one. */
  function BaseListAdded(tb: Table, es: seq<BaseEntry>, store: BodyPartStore, raceId: string, female: bool): Table
    decreases |es|
  {
    if es == [] then tb
    else BaseEntryAdded(BaseListAdded(tb, es[..|es| - 1], store, raceId, female), es[|es| - 1], store, raceId, female)
  }

  /** One entry of the base-body list: a free part gets the base body if its mesh is found. */
  function BaseEntryAdded(tb: Table, e: BaseEntry, store: BodyPartStore, raceId: string, female: bool): Table {
    if tb.priorities[e.part] < BasePriority && BaseSearch(store, raceId, female, e).Some? then
      Reserved(tb, e.part, NoGroup, BasePriority)
    else tb
  }

  /** The head gets the base body if free, then the hair if free while the head is at most base body. */
  function HeadAndHair(tb: Table): Table {
    var head := if tb.priorities[Head] < BasePriority then Reserved(tb, Head, NoGroup, BasePriority) else tb;
    if head.priorities[Hair] < BasePriority && head.priorities[Head] <= BasePriority
    then Reserved(head, Hair, NoGroup, BasePriority) else head
  }

  /** Head, then hair, then the listed parts. */
  function BaseBody(tb: Table, store: BodyPartStore, raceId: string, female: bool): Table {
    BaseListAdded(HeadAndHair(tb), BaseParts, store, raceId, female)
  }

  /** The table after `updateParts`, from the table and cache before it. */
  function UpdatedTable(tb: Table, cache: Equipment, inv: Equipment, store: BodyPartStore,
                        raceId: string, female: bool, isBeast: bool): Table
  {
    var ss := TrackedSlots(isBeast);
    var changed := ChangedSlots(cache, inv, ss);
    var freed := GroupsRemoved(tb, changed);
    var equipped := if changed != [] then EquipAll(freed, RefreshedCache(cache, inv, ss), isBeast) else freed;
    BaseBody(equipped, store, raceId, female)
  }

  // ---------------------------------------------------------------------
  // Properties

  lemma WearWellFormed(tb: Table, items: Equipment, s: int, p: int)
    requires WellFormed(tb) && EntryWellFormed(s, p)
    ensures WellFormed(Wear(tb, items, s, p))
  {
    if s in items {
      ReservedAllWellFormed(tb, PartTypes(items[s].parts), s, p);
    }
  }

  lemma EquipRestWellFormed(tb: Table, items: Equipment, isBeast: bool)
    requires WellFormed(tb)
    ensures WellFormed(EquipRest(tb, items, isBeast))
  {
    var helmet := WearHelmet(tb, items);
    if SlotHelmet in items {
      RemovedWellFormed(tb, Hair);
      WearWellFormed(Removed(tb, Hair), items, SlotHelmet, ArmorPriority);
    }
    var cuirass := Wear(helmet, items, SlotCuirass, ArmorPriority);
    WearWellFormed(helmet, items, SlotCuirass, ArmorPriority);
    var greaves := Wear(cuirass, items, SlotGreaves, ArmorPriority);
    WearWellFormed(cuirass, items, SlotGreaves, ArmorPriority);
    var lpauldron := Wear(greaves, items, SlotLeftPauldron, ArmorPriority);
    WearWellFormed(greaves, items, SlotLeftPauldron, ArmorPriority);
    var rpauldron := Wear(lpauldron, items, SlotRightPauldron, ArmorPriority);
    WearWellFormed(lpauldron, items, SlotRightPauldron, ArmorPriority);
    var boots := WearBoots(rpauldron, items, isBeast);
    WearWellFormed(rpauldron, items, SlotBoots, ClothingPriority);
    WearWellFormed(rpauldron, items, SlotBoots, ArmorPriority);
    var lglove := WearGlove(boots, items, SlotLeftGauntlet);
    WearWellFormed(boots, items, SlotLeftGauntlet, ClothingPriority);
    WearWellFormed(boots, items, SlotLeftGauntlet, ArmorPriority);
    var rglove := WearGlove(lglove, items, SlotRightGauntlet);
    WearWellFormed(lglove, items, SlotRightGauntlet, ClothingPriority);
    WearWellFormed(lglove, items, SlotRightGauntlet, ArmorPriority);
    var shirt := Wear(rglove, items, SlotShirt, ClothingPriority);
    WearWellFormed(rglove, items, SlotShirt, ClothingPriority);
    WearWellFormed(shirt, items, SlotPants, ClothingPriority);
  }

  /** Adding the equipped groups keeps every entry a legal (owner, priority) pair. */
  lemma EquipAllWellFormed(tb: Table, items: Equipment, isBeast: bool)
    requires WellFormed(tb)
    ensures WellFormed(EquipAll(tb, items, isBeast))
  {
    var robe := WearRobe(tb, items);
    if SlotRobe in items {
      WearWellFormed(tb, items, SlotRobe, RobePriority);
      ReservedAllWellFormed(Wear(tb, items, SlotRobe, RobePriority), RobeCover, SlotRobe, RobePriority);
    }
    var skirt := WearSkirt(robe, items);
    if SlotSkirt in items {
      WearWellFormed(robe, items, SlotSkirt, SkirtPriority);
      ReservedAllWellFormed(Wear(robe, items, SlotSkirt, SkirtPriority), SkirtCover, SlotSkirt, SkirtPriority);
    }
    EquipRestWellFormed(skirt, items, isBeast);
  }

  lemma WearKeeps(tb: Table, items: Equipment, s: int, p: int, t: PartType)
    requires tb.priorities[t] >= p
    ensures SameEntry(Wear(tb, items, s, p), tb, t)
  {
    if s in items {
      ReservedAllKeeps(tb, PartTypes(items[s].parts), s, p, t);
    }
  }

  /** Nothing added after the skirt displaces an occupant of priority 4 or 5 (the hair aside). */
  lemma EquipRestKeeps(tb: Table, items: Equipment, isBeast: bool, t: PartType)
    requires t != Hair && tb.priorities[t] >= SkirtPriority
    ensures SameEntry(EquipRest(tb, items, isBeast), tb, t)
  {
    var helmet := WearHelmet(tb, items);
    if SlotHelmet in items {
      WearKeeps(Removed(tb, Hair), items, SlotHelmet, ArmorPriority, t);
    }
    var cuirass := Wear(helmet, items, SlotCuirass, ArmorPriority);
    WearKeeps(helmet, items, SlotCuirass, ArmorPriority, t);
    var greaves := Wear(cuirass, items, SlotGreaves, ArmorPriority);
    WearKeeps(cuirass, items, SlotGreaves, ArmorPriority, t);
    var lpauldron := Wear(greaves, items, SlotLeftPauldron, ArmorPriority);
    WearKeeps(greaves, items, SlotLeftPauldron, ArmorPriority, t);
    var rpauldron := Wear(lpauldron, items, SlotRightPauldron, ArmorPriority);
    WearKeeps(lpauldron, items, SlotRightPauldron, ArmorPriority, t);
    var boots := WearBoots(rpauldron, items, isBeast);
    WearKeeps(rpauldron, items, SlotBoots, ClothingPriority, t);
    WearKeeps(rpauldron, items, SlotBoots, ArmorPriority, t);
    var lglove := WearGlove(boots, items, SlotLeftGauntlet);
    WearKeeps(boots, items, SlotLeftGauntlet, ClothingPriority, t);
    WearKeeps(boots, items, SlotLeftGauntlet, ArmorPriority, t);
    var rglove := WearGlove(lglove, items, SlotRightGauntlet);
    WearKeeps(lglove, items, SlotRightGauntlet, ClothingPriority, t);
    WearKeeps(lglove, items, SlotRightGauntlet, ArmorPriority, t);
    var shirt := Wear(rglove, items, SlotShirt, ClothingPriority);
    WearKeeps(rglove, items, SlotShirt, ClothingPriority, t);
    WearKeeps(shirt, items, SlotPants, ClothingPriority, t);
  }

  /** A worn robe owns every part it claims, at priority 5, once all groups are added. */
  lemma RobeCoversItsParts(tb: Table, items: Equipment, isBeast: bool)
    requires WellFormed(tb) && SlotRobe in items
    ensures forall t :: t in RobeCover ==>
      EquipAll(tb, items, isBeast).owners[t] == SlotRobe && EquipAll(tb, items, isBeast).priorities[t] == RobePriority
  {
    var worn := Wear(tb, items, SlotRobe, RobePriority);
    WearWellFormed(tb, items, SlotRobe, RobePriority);
    var robe := WearRobe(tb, items);
    ReservedAllEffect(worn, RobeCover, SlotRobe, RobePriority);
    var skirt := WearSkirt(robe, items);
    forall t | t in RobeCover
      ensures EquipAll(tb, items, isBeast).owners[t] == SlotRobe
      ensures EquipAll(tb, items, isBeast).priorities[t] == RobePriority
    {
      assert EntryWellFormed(worn.owners[t], worn.priorities[t]);
      assert robe.owners[t] == SlotRobe && robe.priorities[t] == RobePriority;
      if SlotSkirt in items {
        WearKeeps(robe, items, SlotSkirt, SkirtPriority, t);
        ReservedAllKeeps(Wear(robe, items, SlotSkirt, SkirtPriority), SkirtCover, SlotSkirt, SkirtPriority, t);
      }
      EquipRestKeeps(skirt, items, isBeast, t);
    }
  }

  /** A worn skirt holds its claimed parts at priority 4 or more, yielding only to a robe. */
  lemma SkirtCoversItsParts(tb: Table, items: Equipment, isBeast: bool)
    requires WellFormed(tb) && SlotSkirt in items
    ensures forall t :: t in SkirtCover ==>
      && EquipAll(tb, items, isBeast).priorities[t] >= SkirtPriority
      && EquipAll(tb, items, isBeast).owners[t] in {SlotSkirt, SlotRobe}
  {
    var robe := WearRobe(tb, items);
    EquipAllWellFormed(tb, items, isBeast);
    if SlotRobe in items {
      WearWellFormed(tb, items, SlotRobe, RobePriority);
      ReservedAllWellFormed(Wear(tb, items, SlotRobe, RobePriority), RobeCover, SlotRobe, RobePriority);
    }
    var worn := Wear(robe, items, SlotSkirt, SkirtPriority);
    WearWellFormed(robe, items, SlotSkirt, SkirtPriority);
    var skirt := WearSkirt(robe, items);
    ReservedAllEffect(worn, SkirtCover, SlotSkirt, SkirtPriority);
    forall t | t in SkirtCover
      ensures EquipAll(tb, items, isBeast).priorities[t] >= SkirtPriority
      ensures EquipAll(tb, items, isBeast).owners[t] in {SlotSkirt, SlotRobe}
    {
      assert EntryWellFormed(worn.owners[t], worn.priorities[t]);
      assert skirt.priorities[t] >= SkirtPriority && skirt.owners[t] in {SlotSkirt, SlotRobe};
      EquipRestKeeps(skirt, items, isBeast, t);
    }
  }

  // The base body

  function PartsOf(es: seq<BaseEntry>): (ts: seq<PartType>)
    ensures |ts| == |es| && forall i :: 0 <= i < |es| ==> ts[i] == es[i].part
  {
    seq(|es|, i requires 0 <= i < |es| => es[i].part)
  }

  predicate DistinctParts(es: seq<BaseEntry>) {
    forall i, j :: 0 <= i < j < |es| ==> es[i].part != es[j].part
  }

  /**
   * A listed part that was free gets the base body (no group, priority 1)
   * exactly when the store has one of its meshes; every other part, and every
   * occupied one, is left as it was.
   */
  lemma {:induction false} BaseListAddedEffect(tb: Table, es: seq<BaseEntry>, store: BodyPartStore, raceId: string, female: bool)
    requires DistinctParts(es)
    ensures forall i :: 0 <= i < |es| ==>
      var t := es[i].part;
      var r := BaseListAdded(tb, es, store, raceId, female);
      if tb.priorities[t] < BasePriority && BaseSearch(store, raceId, female, es[i]).Some?
      then r.owners[t] == NoGroup && r.priorities[t] == BasePriority
      else SameEntry(r, tb, t)
    ensures forall t: PartType :: t !in PartsOf(es) ==> SameEntry(BaseListAdded(tb, es, store, raceId, female), tb, t)
    decreases |es|
  {
    if es != [] {
      var init := es[..|es| - 1];
      var e := es[|es| - 1];
      BaseListAddedEffect(tb, init, store, raceId, female);
      assert forall t :: t in PartsOf(es) <==> t in PartsOf(init) || t == e.part;
      assert e.part !in PartsOf(init) by {
        forall i | 0 <= i < |init| ensures PartsOf(init)[i] != e.part {
          assert init[i] == es[i];
        }
      }
      forall i | 0 <= i < |init| ensures init[i] == es[i] && es[i].part != e.part {
      }
    }
  }

  /** The base-body list names each part once, and neither the head nor the hair. */
  lemma BasePartsFacts()
    ensures DistinctParts(BaseParts)
    ensures Head !in PartsOf(BaseParts) && Hair !in PartsOf(BaseParts)
  {
  }

  lemma BaseReservedWellFormed(tb: Table, t: PartType)
    requires WellFormed(tb)
    ensures WellFormed(Reserved(tb, t, NoGroup, BasePriority))
  {
  }

  /** `BaseBodyNeverDisplaces` for one part. */
  lemma BaseBodyEntry(tb: Table, store: BodyPartStore, raceId: string, female: bool, t: PartType)
    ensures tb.priorities[t] >= BasePriority ==> SameEntry(BaseBody(tb, store, raceId, female), tb, t)
    ensures tb.priorities[t] < BasePriority ==>
      SameEntry(BaseBody(tb, store, raceId, female), tb, t)
      || (BaseBody(tb, store, raceId, female).owners[t] == NoGroup && BaseBody(tb, store, raceId, female).priorities[t] == BasePriority)
  {
    BasePartsFacts();
    var head := if tb.priorities[Head] < BasePriority then Reserved(tb, Head, NoGroup, BasePriority) else tb;
    var hair := if head.priorities[Hair] < BasePriority && head.priorities[Head] <= BasePriority
      then Reserved(head, Hair, NoGroup, BasePriority) else head;
    BaseListAddedEffect(hair, BaseParts, store, raceId, female);
    if t in PartsOf(BaseParts) {
      var i :| 0 <= i < |BaseParts| && PartsOf(BaseParts)[i] == t;
      assert BaseParts[i].part == t;
    }
  }

  /**
   * The base body never displaces anything: an occupied part is left as it
   * was, and a free part either stays free or gets the base body.
   */
  lemma BaseBodyNeverDisplaces(tb: Table, store: BodyPartStore, raceId: string, female: bool)
    ensures forall t: PartType :: tb.priorities[t] >= BasePriority ==> SameEntry(BaseBody(tb, store, raceId, female), tb, t)
    ensures forall t: PartType :: tb.priorities[t] < BasePriority ==>
      SameEntry(BaseBody(tb, store, raceId, female), tb, t)
      || (BaseBody(tb, store, raceId, female).owners[t] == NoGroup && BaseBody(tb, store, raceId, female).priorities[t] == BasePriority)
  {
    forall t: PartType {
      BaseBodyEntry(tb, store, raceId, female, t);
    }
  }

  /**
   * The head always ends up occupied; the hair is given the base body unless
   * something above the base body (a helmet) holds the head.
   */
  lemma BaseBodyHeadAndHair(tb: Table, store: BodyPartStore, raceId: string, female: bool)
    ensures BaseBody(tb, store, raceId, female).priorities[Head] >= BasePriority
    ensures BaseBody(tb, store, raceId, female).priorities[Head] <= BasePriority ==>
      BaseBody(tb, store, raceId, female).priorities[Hair] >= BasePriority
    ensures tb.priorities[Head] > BasePriority && tb.priorities[Hair] < BasePriority ==>
      SameEntry(BaseBody(tb, store, raceId, female), tb, Hair)
  {
    BasePartsFacts();
    var head := if tb.priorities[Head] < BasePriority then Reserved(tb, Head, NoGroup, BasePriority) else tb;
    var hair := if head.priorities[Hair] < BasePriority && head.priorities[Head] <= BasePriority
      then Reserved(head, Hair, NoGroup, BasePriority) else head;
    BaseListAddedEffect(hair, BaseParts, store, raceId, female);
  }

  /** `BaseListAddedEffect` at one position of the list. */
  lemma BaseListAddedAt(tb: Table, es: seq<BaseEntry>, store: BodyPartStore, raceId: string, female: bool, i: nat)
    requires DistinctParts(es) && i < |es|
    ensures var r := BaseListAdded(tb, es, store, raceId, female);
      if tb.priorities[es[i].part] < BasePriority && BaseSearch(store, raceId, female, es[i]).Some?
      then r.owners[es[i].part] == NoGroup && r.priorities[es[i].part] == BasePriority
      else SameEntry(r, tb, es[i].part)
  {
    BaseListAddedEffect(tb, es, store, raceId, female);
  }

  /** A listed free part gets the base body exactly when its search finds a mesh. */
  lemma BaseBodyFillsFoundParts(tb: Table, store: BodyPartStore, raceId: string, female: bool, e: BaseEntry)
    requires e in BaseParts && tb.priorities[e.part] < BasePriority
    ensures BaseBody(tb, store, raceId, female).priorities[e.part] >= BasePriority
      <==> BaseSearch(store, raceId, female, e).Some?
  {
    BasePartsFacts();
    var i :| 0 <= i < |BaseParts| && BaseParts[i] == e;
    assert PartsOf(BaseParts)[i] == e.part;
    var head := if tb.priorities[Head] < BasePriority then Reserved(tb, Head, NoGroup, BasePriority) else tb;
    var hair := if head.priorities[Hair] < BasePriority && head.priorities[Head] <= BasePriority
      then Reserved(head, Hair, NoGroup, BasePriority) else head;
    assert SameEntry(hair, tb, e.part);
    BaseListAddedAt(hair, BaseParts, store, raceId, female, i);
  }

  lemma BaseBodyWellFormed(tb: Table, store: BodyPartStore, raceId: string, female: bool)
    requires WellFormed(tb)
    ensures WellFormed(BaseBody(tb, store, raceId, female))
  {
    BaseBodyNeverDisplaces(tb, store, raceId, female);
    var r := BaseBody(tb, store, raceId, female);
    forall t: PartType ensures EntryWellFormed(r.owners[t], r.priorities[t]) {
    }
  }

  /** `updateParts` always leaves the head occupied, and gives the hair the base body whenever the head is bare. */
  lemma UpdatedTableHeadAndHair(tb: Table, cache: Equipment, inv: Equipment, store: BodyPartStore,
                                raceId: string, female: bool, isBeast: bool)
    ensures UpdatedTable(tb, cache, inv, store, raceId, female, isBeast).priorities[Head] >= BasePriority
    ensures UpdatedTable(tb, cache, inv, store, raceId, female, isBeast).priorities[Head] <= BasePriority ==>
      UpdatedTable(tb, cache, inv, store, raceId, female, isBeast).priorities[Hair] >= BasePriority
  {
    var ss := TrackedSlots(isBeast);
    var changed := ChangedSlots(cache, inv, ss);
    var freed := GroupsRemoved(tb, changed);
    var equipped := if changed != [] then EquipAll(freed, RefreshedCache(cache, inv, ss), isBeast) else freed;
    BaseBodyHeadAndHair(equipped, store, raceId, female);
  }

  /** `updateParts` keeps the table well formed. */
  lemma UpdatedTableWellFormed(tb: Table, cache: Equipment, inv: Equipment, store: BodyPartStore,
                               raceId: string, female: bool, isBeast: bool)
    requires WellFormed(tb)
    ensures WellFormed(UpdatedTable(tb, cache, inv, store, raceId, female, isBeast))
  {
    var ss := TrackedSlots(isBeast);
    var changed := ChangedSlots(cache, inv, ss);
    var freed := GroupsRemoved(tb, changed);
    GroupsRemovedWellFormed(tb, changed);
    var equipped := if changed != [] then EquipAll(freed, RefreshedCache(cache, inv, ss), isBeast) else freed;
    if changed != [] {
      EquipAllWellFormed(freed, RefreshedCache(cache, inv, ss), isBeast);
    }
    BaseBodyWellFormed(equipped, store, raceId, female);
  }

  /** `FirstFound` one step at a time. */
  lemma FirstFoundStep(store: BodyPartStore, ids: seq<string>)
    requires ids != []
    ensures FirstFound(store, ids) == if ids[0] in store then Some(store[ids[0]]) else FirstFound(store, ids[1..])
  {
  }

  /** The base-body search order: female names before male ones, name0 before name1. */
  lemma BaseSearchOrder(store: BodyPartStore, raceId: string, female: bool, e: BaseEntry)
    ensures BaseSearch(store, raceId, female, e) ==
      var f0 := raceId + "_f_" + e.name0;
      var f1 := raceId + "_f_" + e.name1;
      var m0 := raceId + "_m_" + e.name0;
      var m1 := raceId + "_m_" + e.name1;
      if female && f0 in store then Some(store[f0])
      else if female && f1 in store then Some(store[f1])
      else if m0 in store then Some(store[m0])
      else if m1 in store then Some(store[m1])
      else None
  {
    var ms := [raceId + "_m_" + e.name0, raceId + "_m_" + e.name1];
    FirstFoundStep(store, ms);
    FirstFoundStep(store, ms[1..]);
    assert ms[1..][1..] == [];
    if female {
      var cs := [raceId + "_f_" + e.name0, raceId + "_f_" + e.name1] + ms;
      assert cs == Candidates(raceId, female, e);
      FirstFoundStep(store, cs);
      FirstFoundStep(store, cs[1..]);
      assert cs[1..][1..] == ms;
    } else {
      assert ms == Candidates(raceId, female, e);
    }
  }
}
