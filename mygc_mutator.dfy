/**
 * Building a MyGC mutator: the allocator mapping, the space mapping that binds
 * allocator slots to spaces, the per-pause hooks and the mutator record.
 */
module MyGCMutator {
  import opened GcTypes
  import opened MyGCAllocation
  import opened MyGCPlan
  import Wrappers

  /** Pairs of allocator slot and the space that slot allocates from. */
  type SpaceMapping = seq<(AllocatorSelector, Space)>

  /** The per-pause hook functions a mutator configuration can name. */
  datatype MutatorHook = MygcMutatorNoopHook

  /** The write barrier a mutator uses. */
  datatype Barrier = NoBarrier

  /**
   * `Allocators::new(tls, plan, space_mapping)`, represented by its inputs;
   * the allocator objects it builds are not part of this model.
   */
  datatype Allocators = Allocators(tls: VMMutatorThread, plan: MyGC, spaceMapping: SpaceMapping)

  /** `MutatorConfig`. */
  datatype MutatorConfig = MutatorConfig(
    allocatorMapping: AllocatorMapping,
    spaceMapping: SpaceMapping,
    prepareFunc: MutatorHook,
    releaseFunc: MutatorHook)

  /** `Mutator`. */
  datatype Mutator = Mutator(
    allocators: Allocators,
    barrier: Barrier,
    mutatorTls: VMMutatorThread,
    config: MutatorConfig,
    plan: MyGC)

  /** `mygc_mutator_noop`: despite its name it is unreachable, so no caller may reach it. */
  method MygcMutatorNoop(mutator: Mutator, tls: VMWorkerThread)
    requires false
  {
  }

  /** The three bindings MyGC appends for its own spaces. */
  function MyGCSpaceBindings(plan: MyGC): SpaceMapping
  {
    [(BumpPointer(0), plan.mygcSpace), (BumpPointer(1), plan.immortal), (BumpPointer(2), plan.los)]
  }

  /** The space a semantics is meant to reach, where MyGC decides it. */
  function IntendedSpace(plan: MyGC, multiSpace: bool, s: AllocationSemantics): Wrappers.Option<Space>
  {
    if !multiSpace then Wrappers.Some(plan.mygcSpace)
    else match s
      case Default => Wrappers.Some(plan.mygcSpace)
      case Immortal => Wrappers.Some(plan.immortal)
      case Los => Wrappers.Some(plan.los)
      case _ => Wrappers.None
  }

  /** `sm` pairs `selector` with `space` somewhere. */
  ghost predicate Binds(sm: SpaceMapping, selector: AllocatorSelector, space: Space)
  {
    exists i :: 0 <= i < |sm| && sm[i] == (selector, space)
  }

  /** Every entry of `sm` for `selector` names `space`. */
  ghost predicate BindsOnly(sm: SpaceMapping, selector: AllocatorSelector, space: Space)
  {
    forall i :: 0 <= i < |sm| && sm[i].0 == selector ==> sm[i].1 == space
  }

  /**
   * The framework's space mapping leaves the reserved bump-pointer slots
   * alone: every bump-pointer slot it binds is at or above the reserved count.
   */
  ghost predicate KeepsReservedSlotsFree(prefix: SpaceMapping, reserved: ReservedAllocators)
  {
    forall i :: 0 <= i < |prefix| && prefix[i].0.BumpPointer? ==> prefix[i].0.index >= reserved.nBumpPointer
  }

  /**
   * The chief invariant: a semantics MyGC routes itself reaches a slot that the
   * space mapping binds to the intended space; when the framework's prefix
   * keeps the reserved slots free, that is the only space bound to the slot.
   */
  lemma {:induction false} RoutesToIntendedSpace(
    mapping: AllocatorMapping, multiSpace: bool, created: AllocatorMapping,
    prefix: SpaceMapping, reservedDefault: ReservedAllocators, plan: MyGC, s: AllocationSemantics)
    requires IsMyGCAllocatorMapping(mapping, multiSpace, created)
    requires IntendedSpace(plan, multiSpace, s).Some?
    ensures s in mapping
    ensures Binds(prefix + MyGCSpaceBindings(plan), mapping[s], IntendedSpace(plan, multiSpace, s).value)
    ensures KeepsReservedSlotsFree(prefix, MultiSpaceReservedAllocators(reservedDefault)) ==>
              BindsOnly(prefix + MyGCSpaceBindings(plan), mapping[s], IntendedSpace(plan, multiSpace, s).value)
  {
    var sm := prefix + MyGCSpaceBindings(plan);
    var space := IntendedSpace(plan, multiSpace, s).value;
    var k := if !multiSpace || s == Default then 0 else if s == Immortal then 1 else 2;
    assert mapping[s] == BumpPointer(k);
    assert sm[|prefix| + k] == (BumpPointer(k), space);
    if KeepsReservedSlotsFree(prefix, MultiSpaceReservedAllocators(reservedDefault)) {
      forall i | 0 <= i < |sm| && sm[i].0 == BumpPointer(k)
        ensures sm[i].1 == space
      {
      }
    }
  }

  /** In the single-space build every semantics reaches `mygc_space`. */
  lemma SingleSpaceRoutesAllToMyGCSpace(
    mapping: AllocatorMapping, created: AllocatorMapping, prefix: SpaceMapping,
    reservedDefault: ReservedAllocators, plan: MyGC, s: AllocationSemantics)
    requires IsMyGCAllocatorMapping(mapping, false, created)
    ensures s in mapping && Binds(prefix + MyGCSpaceBindings(plan), mapping[s], plan.mygcSpace)
    ensures KeepsReservedSlotsFree(prefix, MultiSpaceReservedAllocators(reservedDefault)) ==>
              BindsOnly(prefix + MyGCSpaceBindings(plan), mapping[s], plan.mygcSpace)
  {
    RoutesToIntendedSpace(mapping, false, created, prefix, reservedDefault, plan, s);
  }

  /**
   * `create_mygc_mutator`. `createAllocatorMapping` and `createSpaceMapping`
   * stand for the framework's `create_allocator_mapping` and
   * `create_space_mapping`, `reservedDefault` for `ReservedAllocators::DEFAULT`.
   * The plan is the MyGC record directly (the source downcasts to it).
   */
  method CreateMyGCMutator(
    mutatorTls: VMMutatorThread,
    plan: MyGC,
    features: Features,
    createAllocatorMapping: (ReservedAllocators, bool) -> AllocatorMapping,
    createSpaceMapping: (ReservedAllocators, bool, MyGC) -> SpaceMapping,
    reservedDefault: ReservedAllocators)
    returns (m: Mutator)
    requires features.mygcMultiSpace ==> IsTotal(createAllocatorMapping(MultiSpaceReservedAllocators(reservedDefault), false))
    ensures IsMyGCAllocatorMapping(m.config.allocatorMapping, features.mygcMultiSpace,
              createAllocatorMapping(MultiSpaceReservedAllocators(reservedDefault), false))
    ensures m.config.spaceMapping ==
              createSpaceMapping(MultiSpaceReservedAllocators(reservedDefault), false, plan) + MyGCSpaceBindings(plan)
    ensures m.config.prepareFunc == MygcMutatorNoopHook && m.config.releaseFunc == MygcMutatorNoopHook
    ensures m.allocators == Allocators(mutatorTls, plan, m.config.spaceMapping)
    ensures m.barrier == NoBarrier && m.mutatorTls == mutatorTls && m.plan == plan
    ensures forall s :: IntendedSpace(plan, features.mygcMultiSpace, s).Some? ==>
              s in m.config.allocatorMapping &&
              Binds(m.config.spaceMapping, m.config.allocatorMapping[s], IntendedSpace(plan, features.mygcMultiSpace, s).value)
    ensures KeepsReservedSlotsFree(createSpaceMapping(MultiSpaceReservedAllocators(reservedDefault), false, plan),
                                   MultiSpaceReservedAllocators(reservedDefault)) ==>
              forall s :: IntendedSpace(plan, features.mygcMultiSpace, s).Some? ==>
                s in m.config.allocatorMapping &&
                BindsOnly(m.config.spaceMapping, m.config.allocatorMapping[s], IntendedSpace(plan, features.mygcMultiSpace, s).value)
  {
    var allocatorMapping := InitAllocatorMapping(features.mygcMultiSpace, createAllocatorMapping, reservedDefault);
    var vec := createSpaceMapping(MultiSpaceReservedAllocators(reservedDefault), false, plan);
    ghost var prefix := vec;
    vec := vec + [(BumpPointer(0), plan.mygcSpace)];
    vec := vec + [(BumpPointer(1), plan.immortal)];
    vec := vec + [(BumpPointer(2), plan.los)];
    assert vec == prefix + MyGCSpaceBindings(plan);
    var config := MutatorConfig(allocatorMapping, vec, MygcMutatorNoopHook, MygcMutatorNoopHook);
    m := Mutator(Allocators(mutatorTls, plan, config.spaceMapping), NoBarrier, mutatorTls, config, plan);
    forall s | IntendedSpace(plan, features.mygcMultiSpace, s).Some?
      ensures s in m.config.allocatorMapping
      ensures Binds(m.config.spaceMapping, m.config.allocatorMapping[s], IntendedSpace(plan, features.mygcMultiSpace, s).value)
      ensures KeepsReservedSlotsFree(prefix, MultiSpaceReservedAllocators(reservedDefault)) ==>
                BindsOnly(m.config.spaceMapping, m.config.allocatorMapping[s], IntendedSpace(plan, features.mygcMultiSpace, s).value)
    {
      RoutesToIntendedSpace(allocatorMapping, features.mygcMultiSpace,
        createAllocatorMapping(MultiSpaceReservedAllocators(reservedDefault), false), prefix, reservedDefault, plan, s);
    }
  }
}
