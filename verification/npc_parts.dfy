/**
 * The body-part table of an NPC: for each of the 27 body-part types, the
 * equipment group that owns it and the priority of its current occupant.
 *
 * This module holds the vocabulary (part types, inventory slots used as
 * groups, priorities) and the table operations as functions on a value
 * `Table`; the class in module NpcRender applies them to its two arrays.
 */
module NpcParts {

  /** Number of body-part types, PRT_Head (0) .. PRT_Tail (26). */
  const PartCount: nat := 27

  /** A body-part type: an index into the table. */
  type PartType = t: int | 0 <= t < 27

  const Head: PartType := 0
  const Hair: PartType := 1
  const Neck: PartType := 2
  const Cuirass: PartType := 3
  const Groin: PartType := 4
  const Skirt: PartType := 5
  const RHand: PartType := 6
  const LHand: PartType := 7
  const RWrist: PartType := 8
  const LWrist: PartType := 9
  const Shield: PartType := 10
  const RForearm: PartType := 11
  const LForearm: PartType := 12
  const RUpperarm: PartType := 13
  const LUpperarm: PartType := 14
  const RFoot: PartType := 15
  const LFoot: PartType := 16
  const RAnkle: PartType := 17
  const LAnkle: PartType := 18
  const RKnee: PartType := 19
  const LKnee: PartType := 20
  const RLeg: PartType := 21
  const LLeg: PartType := 22
  const RPauldron: PartType := 23
  const LPauldron: PartType := 24
  const Weapon: PartType := 25
  const Tail: PartType := 26

  /** Inventory slots; an equipment group is the slot its item is worn in. */
  const SlotHelmet: int := 0
  const SlotCuirass: int := 1
  const SlotGreaves: int := 2
  const SlotLeftPauldron: int := 3
  const SlotRightPauldron: int := 4
  const SlotLeftGauntlet: int := 5
  const SlotRightGauntlet: int := 6
  const SlotBoots: int := 7
  const SlotShirt: int := 8
  const SlotPants: int := 9
  const SlotSkirt: int := 10
  const SlotRobe: int := 11

  /** The owner recorded for a free entry and for a base-body part. */
  const NoGroup: int := -1

  /** Occupant priorities: a higher one displaces a lower one. */
  const EmptyPriority: int := 0
  const BasePriority: int := 1
  const ClothingPriority: int := 2
  const ArmorPriority: int := 3
  const SkirtPriority: int := 4
  const RobePriority: int := 5

  function Max(a: int, b: int): int {
    if a < b then b else a
  }

  /** The two parallel tables, as values. */
  datatype PartTable = PartTable(owners: seq<int>, priorities: seq<int>)

  /** A table with one entry per body-part type. */
  type Table = t: PartTable | |t.owners| == PartCount && |t.priorities| == PartCount
    witness PartTable(seq(27, _ => -1), seq(27, _ => 0))

  /** The two entries of part `t` agree in `a` and `b`. */
  predicate SameEntry(a: Table, b: Table, t: PartType) {
    a.owners[t] == b.owners[t] && a.priorities[t] == b.priorities[t]
  }

  /** The table of a freshly constructed NPC: every part free. */
  function EmptyTable(): (r: Table)
    ensures forall t: PartType :: r.owners[t] == NoGroup && r.priorities[t] == EmptyPriority
  {
    PartTable(seq(27, _ => NoGroup), seq(27, _ => EmptyPriority))
  }

  /** `removeIndividualPart`: part `t` becomes free; nothing else changes. */
  function Removed(tb: Table, t: PartType): (r: Table)
    ensures r.owners[t] == NoGroup && r.priorities[t] == EmptyPriority
    ensures forall i: PartType :: i != t ==> SameEntry(r, tb, i)
  {
    PartTable(tb.owners[t := NoGroup], tb.priorities[t := EmptyPriority])
  }

  /**
   * `reserveIndividualPart` (and the table effect of
   * `addOrReplaceIndividualPart`): group `g` takes part `t` at priority `p`
   * exactly when `p` is higher than the current occupant's priority.
   */
  function Reserved(tb: Table, t: PartType, g: int, p: int): (r: Table)
    ensures r.priorities[t] == Max(tb.priorities[t], p)
    ensures r.owners[t] == (if p > tb.priorities[t] then g else tb.owners[t])
    ensures p <= tb.priorities[t] ==> r == tb
    ensures forall i: PartType :: i != t ==> SameEntry(r, tb, i)
  {
    if p > tb.priorities[t] then
      var freed := Removed(tb, t);
      PartTable(freed.owners[t := g], freed.priorities[t := p])
    else
      tb
  }

  /** `removePartGroup`: every part owned by group `g` becomes free. */
  function GroupRemoved(tb: Table, g: int): (r: Table)
    ensures forall i: PartType ::
      if tb.owners[i] == g then r.owners[i] == NoGroup && r.priorities[i] == EmptyPriority
      else SameEntry(r, tb, i)
    ensures g != NoGroup ==> forall i: PartType :: r.owners[i] != g
  {
    PartTable(
      seq(27, i requires 0 <= i < 27 => if tb.owners[i] == g then NoGroup else tb.owners[i]),
      seq(27, i requires 0 <= i < 27 => if tb.owners[i] == g then EmptyPriority else tb.priorities[i]))
  }

  /** Reserving the parts `ts` one after another for group `g` at priority `p`. */
  function ReservedAll(tb: Table, ts: seq<PartType>, g: int, p: int): Table
    decreases |ts|
  {
    if ts == [] then tb
    else Reserved(ReservedAll(tb, ts[..|ts| - 1], g, p), ts[|ts| - 1], g, p)
  }

  /**
   * After reserving `ts`, every listed part has priority max(old, p) and
   * belongs to `g` where `p` was higher; every other part is untouched.
   */
  lemma {:induction false} ReservedAllEffect(tb: Table, ts: seq<PartType>, g: int, p: int)
    ensures forall t: PartType :: t in ts ==>
      && ReservedAll(tb, ts, g, p).priorities[t] == Max(tb.priorities[t], p)
      && ReservedAll(tb, ts, g, p).owners[t] == (if p > tb.priorities[t] then g else tb.owners[t])
    ensures forall t: PartType :: t !in ts ==> SameEntry(ReservedAll(tb, ts, g, p), tb, t)
    decreases |ts|
  {
    if ts != [] {
      var init := ts[..|ts| - 1];
      ReservedAllEffect(tb, init, g, p);
      assert forall t :: t in ts <==> t in init || t == ts[|ts| - 1];
    }
  }

  /** Reserving never lowers a priority, and leaves alone every part whose occupant is at least `p`. */
  lemma ReservedAllKeeps(tb: Table, ts: seq<PartType>, g: int, p: int, t: PartType)
    ensures ReservedAll(tb, ts, g, p).priorities[t] >= tb.priorities[t]
    ensures tb.priorities[t] >= p ==> SameEntry(ReservedAll(tb, ts, g, p), tb, t)
  {
  }

  /** Removing the groups `gs` one after another. */
  function GroupsRemoved(tb: Table, gs: seq<int>): Table
    decreases |gs|
  {
    if gs == [] then tb
    else GroupRemoved(GroupsRemoved(tb, gs[..|gs| - 1]), gs[|gs| - 1])
  }

  /** Removing one more group after `gs`. */
  lemma GroupsRemovedSnoc(tb: Table, gs: seq<int>, g: int)
    ensures GroupsRemoved(tb, gs + [g]) == GroupRemoved(GroupsRemoved(tb, gs), g)
  {
  }

  /** Removing real groups frees exactly the parts they owned. */
  lemma {:induction false} GroupsRemovedEffect(tb: Table, gs: seq<int>)
    requires NoGroup !in gs
    ensures forall t: PartType ::
      if tb.owners[t] in gs then
        GroupsRemoved(tb, gs).owners[t] == NoGroup && GroupsRemoved(tb, gs).priorities[t] == EmptyPriority
      else SameEntry(GroupsRemoved(tb, gs), tb, t)
    decreases |gs|
  {
    if gs != [] {
      var init := gs[..|gs| - 1];
      GroupsRemovedEffect(tb, init);
      assert forall g :: g in gs <==> g in init || g == gs[|gs| - 1];
    }
  }

  /** The groups an equipped item other than a skirt or a robe is worn in. */
  predicate IsApparelGroup(g: int) {
    SlotHelmet <= g <= SlotPants
  }

  /**
   * Which (owner, priority) pairs the table can hold: free and base-body
   * entries have no group, clothing and armor (2, 3) belong to one of the
   * ten apparel groups, priority 4 is the skirt's and 5 the robe's.
   */
  predicate EntryWellFormed(owner: int, priority: int) {
    || (owner == NoGroup && (priority == EmptyPriority || priority == BasePriority))
    || (IsApparelGroup(owner) && (priority == ClothingPriority || priority == ArmorPriority))
    || (owner == SlotSkirt && priority == SkirtPriority)
    || (owner == SlotRobe && priority == RobePriority)
  }

  predicate WellFormed(tb: Table) {
    forall t: PartType :: EntryWellFormed(tb.owners[t], tb.priorities[t])
  }

  lemma EmptyWellFormed()
    ensures WellFormed(EmptyTable())
  {
  }

  lemma RemovedWellFormed(tb: Table, t: PartType)
    requires WellFormed(tb)
    ensures WellFormed(Removed(tb, t))
  {
  }

  lemma {:induction false} ReservedAllWellFormed(tb: Table, ts: seq<PartType>, g: int, p: int)
    requires WellFormed(tb) && EntryWellFormed(g, p)
    ensures WellFormed(ReservedAll(tb, ts, g, p))
  {
    ReservedAllEffect(tb, ts, g, p);
  }

  lemma {:induction false} GroupsRemovedWellFormed(tb: Table, gs: seq<int>)
    requires WellFormed(tb) && NoGroup !in gs
    ensures WellFormed(GroupsRemoved(tb, gs))
  {
    GroupsRemovedEffect(tb, gs);
  }
}
