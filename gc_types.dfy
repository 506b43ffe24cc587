/** Option, for the optional arguments the plan interface takes. */
module Wrappers {
  datatype Option<+T> = None | Some(value: T)
}

/**
 * The types that the MyGC plan and its mutator share with the rest of the
 * collector framework: allocation semantics, allocator selectors, reserved
 * allocator counts, virtual-memory requests, plan constraints and the
 * arguments a space is built from. Their defining files are not part of this
 * model; only what the plan and mutator use of them is represented.
 */
module GcTypes {

  /** Handles of the runtime's threads; the plan only passes them along. */
  type VMMutatorThread(==)
  type VMWorkerThread(==)

  /** The arguments the runtime gives every plan; their content is not interpreted here. */
  type GeneralPlanArgs(==)

  /** One side-metadata specification (bit layout of some per-object or per-region data). */
  type SideMetadataSpec(==)

  /** Why memory is requested; routes a request to an allocator. */
  datatype AllocationSemantics = Default | Immortal | Los | Code | ReadOnly | LargeCode

  /** Every semantics value, so that totality of a mapping can be stated. */
  const AllSemantics: set<AllocationSemantics> := {Default, Immortal, Los, Code, ReadOnly, LargeCode}

  lemma AllSemanticsComplete()
    ensures forall s: AllocationSemantics :: s in AllSemantics
  {
    forall s: AllocationSemantics
      ensures s in AllSemantics
    {
      match s
      case Default =>
      case Immortal =>
      case Los =>
      case Code =>
      case ReadOnly =>
      case LargeCode =>
    }
  }

  /** Which of a mutator's allocators serves a request: a kind and an index into that kind's slots. */
  datatype AllocatorSelector =
    | BumpPointer(index: nat)
    | LargeObject(index: nat)
    | Malloc(index: nat)
    | Immix(index: nat)
    | MarkCompact(index: nat)
    | FreeList(index: nat)
    | None

  /** The plan-wide table from semantics to allocator selector (an `EnumMap`). */
  type AllocatorMapping = map<AllocationSemantics, AllocatorSelector>

  /** An `EnumMap` has an entry for every semantics value. */
  ghost predicate IsTotal(m: AllocatorMapping)
  {
    forall s: AllocationSemantics :: s in m
  }

  /** How many allocator slots of each kind a plan keeps for its own spaces. */
  datatype ReservedAllocators = ReservedAllocators(
    nBumpPointer: nat,
    nLargeObject: nat,
    nMalloc: nat,
    nImmix: nat,
    nMarkCompact: nat,
    nFreeList: nat)

  /** How a space asks for virtual memory (only the cases this model needs to tell apart). */
  datatype VMRequest =
    | Discontiguous
    | Extent(extent: nat, top: bool)

  /** The values of a plan's constraints that MyGC does not set itself. */
  type OtherConstraints(==)

  /** A plan's structural properties, fixed when the plan type is defined. */
  datatype PlanConstraints = PlanConstraints(
    movesObjects: bool,
    gcHeaderBits: nat,
    gcHeaderWords: nat,
    numSpecializedScans: nat,
    others: OtherConstraints)

  /**
   * The plan-specific construction arguments: the runtime's general arguments,
   * the plan's constraints, and the plan-specific side-metadata specifications
   * handed to the global side-metadata context.
   */
  datatype CreateSpecificPlanArgs = CreateSpecificPlanArgs(
    globalArgs: GeneralPlanArgs,
    constraints: PlanConstraints,
    planSpecificSpecs: seq<SideMetadataSpec>)

  /** What `get_space_args` hands to a space constructor. */
  datatype SpaceArgs = SpaceArgs(
    name: string,
    zeroed: bool,
    vmRequest: VMRequest,
    planArgs: CreateSpecificPlanArgs)

  /**
   * A space, represented by the arguments it was built from; its page
   * accounting and metadata layout are internal to the space policy.
   */
  datatype Space = Space(args: SpaceArgs)

  /** `CreateSpecificPlanArgs::get_space_args`: the arguments for one space. */
  function GetSpaceArgs(planArgs: CreateSpecificPlanArgs, name: string, zeroed: bool, vmRequest: VMRequest): SpaceArgs
  {
    SpaceArgs(name, zeroed, vmRequest, planArgs)
  }
}
