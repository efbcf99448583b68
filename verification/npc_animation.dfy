/**
 * The NPC renderer's part bookkeeping: the object that owns the two 27-entry
 * arrays (`mPartslots`, `mPartPriorities`), the twelve cached equipment slots,
 * and the methods of `NpcAnimation` that update them in place. Each method is
 * proved to leave the arrays holding the table function of module NpcParts or
 * NpcUpdate applied to the table before the call.
 */
module NpcRender {
  import opened Options
  import opened NpcParts
  import opened NpcUpdate

  /** `::tolower` in the C locale: only 'A'..'Z' change. */
  function LowerChar(c: char): char {
    if 'A' <= c <= 'Z' then (c as int + 32) as char else c
  }

  /** The race id after `std::transform(..., ::tolower)`. */
  function Lower(s: string): (r: string)
    ensures |r| == |s|
    ensures forall i :: 0 <= i < |s| ==> !('A' <= r[i] <= 'Z')
    ensures forall i :: 0 <= i < |s| ==> (r[i] == s[i] <==> !('A' <= s[i] <= 'Z'))
    ensures forall i :: 0 <= i < |s| && 'A' <= s[i] <= 'Z' ==> r[i] as int == s[i] as int + 32
  {
    seq(|s|, i requires 0 <= i < |s| => LowerChar(s[i]))
  }

  /** The lower-case prefix "b_n_" survives, so the id always starts with it. */
  lemma LowerKeepsPrefix(name: string)
    ensures |Lower("b_n_" + name)| >= 4 && Lower("b_n_" + name)[..4] == "b_n_"
    ensures Lower("b_n_" + name) == "b_n_" + Lower(name)
  {
  }

  class NpcAnimation {
    /** `mPartslots`: the group owning each part, -1 when none. */
    const partSlots: array<int>
    /** `mPartPriorities`: the priority of each part's occupant, 0 when free. */
    const partPriorities: array<int>
    const isFemale: bool
    const isBeast: bool
    /** "b_n_" followed by the race name, lower-cased. */
    const bodyRaceId: string
    /** The twelve cached slot iterators: slot -> item last seen there. */
    var cache: Equipment

    /** Two distinct arrays of one entry per part type. */
    predicate Valid() {
      partSlots.Length == PartCount && partPriorities.Length == PartCount && partSlots != partPriorities
    }

    /** The arrays as a table value. */
    function CurrentTable(): Table
      requires Valid()
      reads partSlots, partPriorities
    {
      PartTable(partSlots[..], partPriorities[..])
    }

    /**
     * Sets up the NPC: every part free, the race id, then one `updateParts`
     * against the current inventory with every cached slot empty.
     */
    constructor (raceName: string, female: bool, beast: bool, inv: Equipment, store: BodyPartStore)
      ensures Valid() && fresh(partSlots) && fresh(partPriorities)
      ensures isFemale == female && isBeast == beast
      ensures bodyRaceId == Lower("b_n_" + raceName)
      ensures |bodyRaceId| >= 4 && bodyRaceId[..4] == "b_n_"
      ensures cache == RefreshedCache(map[], inv, TrackedSlots(beast))
      ensures CurrentTable() == UpdatedTable(EmptyTable(), map[], inv, store, bodyRaceId, female, beast)
      ensures WellFormed(CurrentTable())
      ensures CurrentTable().priorities[Head] >= BasePriority
    {
      partSlots := new int[PartCount];
      partPriorities := new int[PartCount];
      isFemale := female;
      isBeast := beast;
      bodyRaceId := Lower("b_n_" + raceName);
      LowerKeepsPrefix(raceName);
      cache := map[];
      new;
      var k := 0;
      while k < PartCount
        invariant 0 <= k <= PartCount
        invariant cache == map[]
        invariant forall j :: 0 <= j < k ==> partSlots[j] == NoGroup && partPriorities[j] == EmptyPriority
      {
        partSlots[k] := NoGroup;
        partPriorities[k] := EmptyPriority;
        k := k + 1;
      }
      assert CurrentTable() == EmptyTable();
      EmptyWellFormed();
      UpdateParts(inv, store);
    }

    /** `removeIndividualPart`, as far as the table goes. */
    method RemoveIndividualPart(t: PartType)
      requires Valid()
      modifies partSlots, partPriorities
      ensures CurrentTable() == Removed(old(CurrentTable()), t)
    {
      partPriorities[t] := EmptyPriority;
      partSlots[t] := NoGroup;
    }

    /** `reserveIndividualPart`: claim part `t` for group `g` when `p` beats its occupant. */
    method ReserveIndividualPart(t: PartType, g: int, p: int)
      requires Valid()
      modifies partSlots, partPriorities
      ensures CurrentTable() == Reserved(old(CurrentTable()), t, g, p)
    {
      if p > partPriorities[t] {
        RemoveIndividualPart(t);
        partPriorities[t] := p;
        partSlots[t] := g;
      }
    }

    /**
     * `addOrReplaceIndividualPart`: the same claim as a reservation, and it
     * reports whether the part was taken.
     */
    method AddOrReplaceIndividualPart(t: PartType, g: int, p: int) returns (added: bool)
      requires Valid()
      modifies partSlots, partPriorities
      ensures added == (p > old(partPriorities[t]))
      ensures CurrentTable() == Reserved(old(CurrentTable()), t, g, p)
    {
      if p <= partPriorities[t] {
        return false;
      }
      RemoveIndividualPart(t);
      partSlots[t] := g;
      partPriorities[t] := p;
      added := true;
    }

    /** `removePartGroup`: free every part owned by `g`. */
    method RemovePartGroup(g: int)
      requires Valid()
      modifies partSlots, partPriorities
      ensures CurrentTable() == GroupRemoved(old(CurrentTable()), g)
    {
      ghost var before := CurrentTable();
      var i := 0;
      while i < PartCount
        invariant 0 <= i <= PartCount
        invariant forall k :: 0 <= k < i ==>
          if before.owners[k] == g then partSlots[k] == NoGroup && partPriorities[k] == EmptyPriority
          else partSlots[k] == before.owners[k] && partPriorities[k] == before.priorities[k]
        invariant forall k :: i <= k < PartCount ==>
          partSlots[k] == before.owners[k] && partPriorities[k] == before.priorities[k]
      {
        if partSlots[i] == g {
          RemoveIndividualPart(i);
        }
        i := i + 1;
      }
      assert partSlots[..] == GroupRemoved(before, g).owners;
      assert partPriorities[..] == GroupRemoved(before, g).priorities;
    }

    /**
     * `addPartGroup`: each referenced part is claimed for `g` at priority `p`,
     * through `addOrReplaceIndividualPart` when the store has its mesh and
     * through `reserveIndividualPart` otherwise.
     */
    method AddPartGroup(g: int, p: int, parts: seq<PartReference>, store: BodyPartStore)
      requires Valid()
      modifies partSlots, partPriorities
      ensures CurrentTable() == ReservedAll(old(CurrentTable()), PartTypes(parts), g, p)
    {
      ghost var before := CurrentTable();
      ghost var ts := PartTypes(parts);
      var i := 0;
      while i < |parts|
        invariant 0 <= i <= |parts|
        invariant CurrentTable() == ReservedAll(before, ts[..i], g, p)
      {
        var mesh := LookupPart(store, parts[i], isFemale);
        if mesh.Some? {
          var _ := AddOrReplaceIndividualPart(parts[i].part, g, p);
        } else {
          ReserveIndividualPart(parts[i].part, g, p);
        }
        assert ts[..i + 1][..i] == ts[..i];
        i := i + 1;
      }
      assert ts[..|parts|] == ts;
    }

    /** The run of `reserveIndividualPart` calls that follows a robe's or a skirt's group. */
    method ReserveParts(ts: seq<PartType>, g: int, p: int)
      requires Valid()
      modifies partSlots, partPriorities
      ensures CurrentTable() == ReservedAll(old(CurrentTable()), ts, g, p)
    {
      ghost var before := CurrentTable();
      var i := 0;
      while i < |ts|
        invariant 0 <= i <= |ts|
        invariant CurrentTable() == ReservedAll(before, ts[..i], g, p)
      {
        ReserveIndividualPart(ts[i], g, p);
        assert ts[..i + 1][..i] == ts[..i];
        i := i + 1;
      }
      assert ts[..|ts|] == ts;
    }

    /** One of the blocks that add the group of the item cached in slot `s`. */
    method WearSlot(s: int, p: int, store: BodyPartStore)
      requires Valid()
      modifies partSlots, partPriorities
      ensures CurrentTable() == Wear(old(CurrentTable()), cache, s, p)
    {
      if s in cache {
        AddPartGroup(s, p, cache[s].parts, store);
      }
    }

    /** One of the twelve checks: re-cache slot `s` and free its group if its item changed. */
    method CheckSlot(inv: Equipment, s: int) returns (differs: bool)
      requires Valid()
      modifies this, partSlots, partPriorities
      ensures differs == (SlotItem(old(cache), s) != SlotItem(inv, s))
      ensures cache == Recached(old(cache), inv, s)
      ensures CurrentTable() == if differs then GroupRemoved(old(CurrentTable()), s) else old(CurrentTable())
    {
      differs := SlotItem(cache, s) != SlotItem(inv, s);
      if differs {
        cache := Recached(cache, inv, s);
        RemovePartGroup(s);
      } else {
        SameSlotsSameMap(cache, Recached(cache, inv, s));
      }
    }

    /**
     * The twelve checks at the start of `updateParts`, in source order; the
     * boots slot is skipped for a beast. Reports whether any slot changed.
     */
    method RefreshEquipment(inv: Equipment) returns (changed: bool)
      requires Valid()
      modifies this, partSlots, partPriorities
      ensures changed <==> ChangedSlots(old(cache), inv, TrackedSlots(isBeast)) != []
      ensures cache == RefreshedCache(old(cache), inv, TrackedSlots(isBeast))
      ensures CurrentTable() == GroupsRemoved(old(CurrentTable()), ChangedSlots(old(cache), inv, TrackedSlots(isBeast)))
    {
      changed := CheckSlots(inv, TrackedSlots(isBeast));
    }

    /** The checks of the slots `ss`, one after the other. */
    method CheckSlots(inv: Equipment, ss: seq<int>) returns (changed: bool)
      requires Valid()
      requires forall j, k :: 0 <= j < k < |ss| ==> ss[j] != ss[k]
      modifies this, partSlots, partPriorities
      ensures changed <==> ChangedSlots(old(cache), inv, ss) != []
      ensures cache == RefreshedCache(old(cache), inv, ss)
      ensures CurrentTable() == GroupsRemoved(old(CurrentTable()), ChangedSlots(old(cache), inv, ss))
    {
      ghost var before := CurrentTable();
      ghost var cache0 := cache;
      ghost var cs: seq<int> := [];
      changed := false;
      var i := 0;
      while i < |ss|
        invariant 0 <= i <= |ss|
        invariant cache == RefreshedCache(cache0, inv, ss[..i])
        invariant cs == ChangedSlots(cache0, inv, ss[..i])
        invariant changed <==> cs != []
        invariant CurrentTable() == GroupsRemoved(before, cs)
      {
        RefreshStep(cache0, inv, ss, i);
        GroupsRemovedSnoc(before, cs, ss[i]);
        var differs := CheckSlot(inv, ss[i]);
        changed := changed || differs;
        if differs {
          cs := cs + [ss[i]];
        }
        i := i + 1;
      }
      assert ss[..|ss|] == ss;
    }

    /** The `apparelChanged` block: every cached item's group, in source order. */
    method EquipApparel(store: BodyPartStore)
      requires Valid()
      modifies partSlots, partPriorities
      ensures CurrentTable() == EquipAll(old(CurrentTable()), cache, isBeast)
    {
      if SlotRobe in cache {
        AddPartGroup(SlotRobe, RobePriority, cache[SlotRobe].parts, store);
        ReserveParts(RobeCover, SlotRobe, RobePriority);
      }
      if SlotSkirt in cache {
        AddPartGroup(SlotSkirt, SkirtPriority, cache[SlotSkirt].parts, store);
        ReserveParts(SkirtCover, SlotSkirt, SkirtPriority);
      }
      EquipArmorPieces(store);
      EquipLimbPieces(store);
    }

    method EquipArmorPieces(store: BodyPartStore)
      requires Valid()
      modifies partSlots, partPriorities
      ensures CurrentTable() == EquipArmor(old(CurrentTable()), cache)
    {
      if SlotHelmet in cache {
        RemoveIndividualPart(Hair);
        AddPartGroup(SlotHelmet, ArmorPriority, cache[SlotHelmet].parts, store);
      }
      WearSlot(SlotCuirass, ArmorPriority, store);
      WearSlot(SlotGreaves, ArmorPriority, store);
      WearSlot(SlotLeftPauldron, ArmorPriority, store);
      WearSlot(SlotRightPauldron, ArmorPriority, store);
    }

    method EquipLimbPieces(store: BodyPartStore)
      requires Valid()
      modifies partSlots, partPriorities
      ensures CurrentTable() == EquipLimbs(old(CurrentTable()), cache, isBeast)
    {
      if !isBeast && SlotBoots in cache {
        match cache[SlotBoots].kind
        case Clothing => WearSlot(SlotBoots, ClothingPriority, store);
        case Armor => WearSlot(SlotBoots, ArmorPriority, store);
        case OtherKind =>
      }
      if SlotLeftGauntlet in cache {
        WearSlot(SlotLeftGauntlet, if cache[SlotLeftGauntlet].kind == Clothing then ClothingPriority else ArmorPriority, store);
      }
      if SlotRightGauntlet in cache {
        WearSlot(SlotRightGauntlet, if cache[SlotRightGauntlet].kind == Clothing then ClothingPriority else ArmorPriority, store);
      }
      WearSlot(SlotShirt, ClothingPriority, store);
      WearSlot(SlotPants, ClothingPriority, store);
    }

    /**
     * The base-body search of one list entry: "<race>_f_<name>" then
     * "<race>_m_<name>" (female only for a female NPC), `name0` before
     * `name1` each time; stops at the first id the store has.
     */
    method FindBaseBodyPart(store: BodyPartStore, e: BaseEntry) returns (part: Option<BodyPart>)
      ensures part == BaseSearch(store, bodyRaceId, isFemale, e)
    {
      ghost var all := Candidates(bodyRaceId, isFemale, e);
      ghost var pos := 0;
      var tryFemale := isFemale;
      var ni: bv1 := 0;
      part := None;
      while true
        invariant tryFemale ==> isFemale
        invariant pos == (if isFemale && !tryFemale then 2 else 0) + (if ni == 0 then 0 else 1)
        invariant pos < |all|
        invariant all[pos] == bodyRaceId + (if tryFemale then "_f_" else "_m_") + (if ni == 0 then e.name0 else e.name1)
        invariant BaseSearch(store, bodyRaceId, isFemale, e) == FirstFound(store, all[pos..])
        decreases |all| - pos
      {
        var id := bodyRaceId + (if tryFemale then "_f_" else "_m_") + (if ni == 0 then e.name0 else e.name1);
        if id in store {
          part := Some(store[id]);
          break;
        }
        assert all[pos..][1..] == all[pos + 1..];
        ni := ni ^ 1;
        pos := pos + 1;
        if ni == 0 {
          if !tryFemale {
            break;
          }
          tryFemale := false;
        }
      }
    }

    /** Head, hair, then the base-body list, each only where nothing better sits. */
    method AddBaseBody(store: BodyPartStore)
      requires Valid()
      modifies partSlots, partPriorities
      ensures CurrentTable() == BaseBody(old(CurrentTable()), store, bodyRaceId, isFemale)
    {
      AddHeadAndHair();
      AddBaseList(store);
    }

    /** The head and hair steps of the base body. */
    method AddHeadAndHair()
      requires Valid()
      modifies partSlots, partPriorities
      ensures CurrentTable() == HeadAndHair(old(CurrentTable()))
    {
      if partPriorities[Head] < BasePriority {
        var _ := AddOrReplaceIndividualPart(Head, NoGroup, BasePriority);
      }
      if partPriorities[Hair] < BasePriority && partPriorities[Head] <= BasePriority {
        var _ := AddOrReplaceIndividualPart(Hair, NoGroup, BasePriority);
      }
    }

    /** The loop over the base-body list: each free part whose mesh is found gets it. */
    method AddBaseList(store: BodyPartStore)
      requires Valid()
      modifies partSlots, partPriorities
      ensures CurrentTable() == BaseListAdded(old(CurrentTable()), BaseParts, store, bodyRaceId, isFemale)
    {
      ghost var start := CurrentTable();
      var i := 0;
      while i < |BaseParts|
        invariant 0 <= i <= |BaseParts|
        invariant CurrentTable() == BaseListAdded(start, BaseParts[..i], store, bodyRaceId, isFemale)
      {
        assert BaseParts[..i + 1][..i] == BaseParts[..i];
        AddBaseEntry(store, BaseParts[i]);
        i := i + 1;
      }
      assert BaseParts[..|BaseParts|] == BaseParts;
    }

    /** One iteration of the base-body loop. */
    method AddBaseEntry(store: BodyPartStore, e: BaseEntry)
      requires Valid()
      modifies partSlots, partPriorities
      ensures CurrentTable() == BaseEntryAdded(old(CurrentTable()), e, store, bodyRaceId, isFemale)
    {
      if partPriorities[e.part] < BasePriority {
        var part := FindBaseBodyPart(store, e);
        if part.Some? {
          var _ := AddOrReplaceIndividualPart(e.part, NoGroup, BasePriority);
        }
      }
    }

    /**
     * `updateParts`: refresh the cache, re-add every group if anything
     * changed, then fill the free parts with the base body. A well-formed
     * table stays well formed and the head is always occupied afterwards.
     */
    method UpdateParts(inv: Equipment, store: BodyPartStore)
      requires Valid()
      modifies this, partSlots, partPriorities
      ensures cache == RefreshedCache(old(cache), inv, TrackedSlots(isBeast))
      ensures CurrentTable() == UpdatedTable(old(CurrentTable()), old(cache), inv, store, bodyRaceId, isFemale, isBeast)
      ensures WellFormed(old(CurrentTable())) ==> WellFormed(CurrentTable())
      ensures CurrentTable().priorities[Head] >= BasePriority
    {
      ghost var before := CurrentTable();
      ghost var cache0 := cache;
      var changed := RefreshEquipment(inv);
      if changed {
        EquipApparel(store);
      }
      AddBaseBody(store);
      if WellFormed(before) {
        UpdatedTableWellFormed(before, cache0, inv, store, bodyRaceId, isFemale, isBeast);
      }
      UpdatedTableHeadAndHair(before, cache0, inv, store, bodyRaceId, isFemale, isBeast);
    }
  }
}
