/**
 * How MyGC routes allocation requests: the allocator slots it reserves and the
 * table from allocation semantics to allocator selector, in its single-space
 * and its multi-space build. The build-time feature `mygc_multi_space` is the
 * boolean `multiSpace`.
 */
module MyGCAllocation {
  import opened GcTypes

  /** The number of bump-pointer slots MyGC reserves for its own three spaces. */
  const ReservedBumpPointers: nat := 3

  /**
   * `MULTI_SPACE_RESERVED_ALLOCATORS`: the framework's default counts with
   * three bump-pointer slots instead of the default number.
   */
  function MultiSpaceReservedAllocators(default: ReservedAllocators): (r: ReservedAllocators)
    ensures r.nBumpPointer == ReservedBumpPointers
    ensures r.(nBumpPointer := default.nBumpPointer) == default
  {
    default.(nBumpPointer := ReservedBumpPointers)
  }

  /** The semantics whose entries the multi-space build overrides. */
  predicate IsOverridden(s: AllocationSemantics)
  {
    s == Default || s == Immortal || s == Los
  }

  /** The single-space table: every semantics goes to the first bump-pointer allocator. */
  ghost predicate IsSingleSpaceMapping(m: AllocatorMapping)
  {
    IsTotal(m) && forall s: AllocationSemantics :: m[s] == BumpPointer(0)
  }

  /**
   * The multi-space table: Default, Immortal and Los go to bump-pointer slots
   * 0, 1 and 2; every other semantics keeps the entry of `created`, the table
   * the framework built for the reserved counts.
   */
  ghost predicate IsMultiSpaceMapping(m: AllocatorMapping, created: AllocatorMapping)
  {
    && IsTotal(m)
    && m[Default] == BumpPointer(0)
    && m[Immortal] == BumpPointer(1)
    && m[Los] == BumpPointer(2)
    && forall s: AllocationSemantics :: !IsOverridden(s) ==> s in created && m[s] == created[s]
  }

  /** What `ALLOCATOR_MAPPING` is in either build. */
  ghost predicate IsMyGCAllocatorMapping(m: AllocatorMapping, multiSpace: bool, created: AllocatorMapping)
  {
    if multiSpace then IsMultiSpaceMapping(m, created) else IsSingleSpaceMapping(m)
  }

  /** `ALLOCATOR_MAPPING_SINGLE_SPACE`, the `enum_map!` with one arm for all semantics. */
  function AllocatorMappingSingleSpace(): (m: AllocatorMapping)
    ensures IsSingleSpaceMapping(m)
  {
    AllSemanticsComplete();
    map s | s in AllSemantics :: BumpPointer(0)
  }

  /**
   * The initialiser of `ALLOCATOR_MAPPING`. In the multi-space build it takes
   * the table `create_allocator_mapping` builds for the reserved counts (not
   * including the common plan's spaces) and overwrites three entries in place;
   * otherwise it is the single-space table. `createAllocatorMapping` stands for
   * that framework function, whose body is not part of this model; it returns
   * an `EnumMap`, hence a total table.
   */
  method InitAllocatorMapping(
    multiSpace: bool,
    createAllocatorMapping: (ReservedAllocators, bool) -> AllocatorMapping,
    reservedDefault: ReservedAllocators)
    returns (mapping: AllocatorMapping)
    requires multiSpace ==> IsTotal(createAllocatorMapping(MultiSpaceReservedAllocators(reservedDefault), false))
    ensures IsMyGCAllocatorMapping(mapping, multiSpace, createAllocatorMapping(MultiSpaceReservedAllocators(reservedDefault), false))
  {
    if multiSpace {
      mapping := createAllocatorMapping(MultiSpaceReservedAllocators(reservedDefault), false);
      mapping := mapping[Default := BumpPointer(0)];
      mapping := mapping[Immortal := BumpPointer(1)];
      mapping := mapping[Los := BumpPointer(2)];
    } else {
      mapping := AllocatorMappingSingleSpace();
    }
  }

  /** The two characterisations leave no freedom: each pins down one table. */
  lemma MappingDetermined(m1: AllocatorMapping, m2: AllocatorMapping, multiSpace: bool, created: AllocatorMapping)
    requires IsMyGCAllocatorMapping(m1, multiSpace, created)
    requires IsMyGCAllocatorMapping(m2, multiSpace, created)
    ensures m1 == m2
  {
    forall s: AllocationSemantics
      ensures s in m1 && s in m2 && m1[s] == m2[s]
    {
      if multiSpace {
        match s
        case Default =>
        case Immortal =>
        case Los =>
        case _ =>
          assert !IsOverridden(s);
      }
    }
    assert m1.Keys == m2.Keys;
  }

  /**
   * Every override writes a bump-pointer slot below the reserved count, so the
   * framework never hands those slots to another space.
   */
  lemma OverridesWithinReservation(m: AllocatorMapping, created: AllocatorMapping, default: ReservedAllocators, s: AllocationSemantics)
    requires IsMultiSpaceMapping(m, created)
    requires IsOverridden(s)
    ensures m[s].BumpPointer?
    ensures m[s].index < MultiSpaceReservedAllocators(default).nBumpPointer
  {
  }

  /** Outside the three overrides, the multi-space table is the framework's table. */
  lemma OverridesChangeOnlyThree(m: AllocatorMapping, created: AllocatorMapping, s: AllocationSemantics)
    requires IsMultiSpaceMapping(m, created)
    requires s in created && m[s] != created[s]
    ensures s == Default || s == Immortal || s == Los
  {
  }
}
