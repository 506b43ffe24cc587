# MyGC plan composition and the reference processor registry (mmtk-core)

This project models the core of the MyGC plan in mmtk-core, a pluggable
garbage-collection framework. It also proves properties of that model. MyGC is
a plan that allocates and never collects. It stacks three immortal spaces
(`mygc_space`, `immortal`, `los`) on top of the framework's base plan. It routes
allocation requests to bump-pointer allocators. Its pause hooks must never run.
The project also models the reference processor registry: one processor per
reference strength (soft, weak, phantom), each holding a table of candidate
references and a nursery index.

Modules, one per source component:

- `Wrappers`, `GcTypes` (gc_types.dfy): the framework types the plan uses.
  These are allocation semantics, allocator selectors, reserved allocator
  counts, VM requests, plan constraints and space arguments. Their defining
  files are not part of this model.
- `MyGCAllocation` (mygc_allocation.dfy): the allocator reservation and the
  semantics-to-allocator table of src/plan/mygc/mutator.rs, lines 15-37.
  `get_allocator_mapping` in global.rs reads this table, and mutator.rs reads
  the plan record. Dafny modules cannot import each other in a cycle, so this
  part of mutator.rs is a module of its own.
- `MyGCPlan` (mygc_plan.dfy): src/plan/mygc/global.rs.
- `MyGCMutator` (mygc_mutator.dfy): the rest of src/plan/mygc/mutator.rs.
- `ReferenceProcessing` (reference_processor.dfy): src/util/reference_processor.rs.

Collaborators whose code is not part of this model are parameters:

- `create_allocator_mapping` and `create_space_mapping` are function-typed
  parameters.
- `BasePlan::new` and `BasePlan::collection_required` are function-typed
  parameters.
- Each space's `reserved_pages` is a function-typed parameter `Space -> nat`.
- `PlanConstraints::default()` and `ReservedAllocators::DEFAULT` are parameters.
- The base plan's own spaces and its page count are fields of `BasePlan`.

The cargo features `mygc_multi_space` and `mygc_no_zeroing` are the booleans of
`Features`. Thread handles, the general plan arguments and side-metadata specs
are opaque types.

Where the design description and the code disagree, the model follows the code:

- The design describes `add_candidate(address)` as appending to the table. The
  code's `add_candidate` takes no address and has an empty body
  (src/util/reference_processor.rs:91-93). The model leaves the processor
  unchanged, so a registered table stays empty however often it is called.
- The design states used pages as the sum over every space that `get_spaces`
  lists, plus the base plan's usage. The code sums only MyGC's three spaces and
  adds `base.get_used_pages()`. `UsedPagesOverAllSpaces` states the exact
  relation between the two.
- `constraints()` and `new` name the constant `MyGC_CONSTRAINTS`. Its
  definition is spelled `MYGC_CONSTRAINTS`. The model treats both names as the
  one constant `MyGCConstraints`.

## Model

| member | source | states |
|---|---|---|
| `MyGCAllocation.MultiSpaceReservedAllocators` | src/plan/mygc/mutator.rs:15-19 | three bump-pointer slots are reserved; every other count is the framework default's |
| `MyGCAllocation.AllocatorMappingSingleSpace` | src/plan/mygc/mutator.rs:23-25 | the single-space table is total and maps every semantics to `BumpPointer(0)` |
| `MyGCAllocation.InitAllocatorMapping` | src/plan/mygc/mutator.rs:26-36 | single-space build: the all-`BumpPointer(0)` table; multi-space build: a total table with Default, Immortal and Los at `BumpPointer(0/1/2)` and every other semantics as `create_allocator_mapping` built it for the reserved counts |
| `MyGCAllocation.MappingDetermined` | src/plan/mygc/mutator.rs:26-36 | in each build, the characterisation of `ALLOCATOR_MAPPING` allows exactly one table |
| `MyGCAllocation.OverridesWithinReservation` | src/plan/mygc/mutator.rs:16-31 | each overridden entry is a bump-pointer selector whose index is below the reserved count |
| `MyGCAllocation.OverridesChangeOnlyThree` | src/plan/mygc/mutator.rs:28-32 | an entry that differs from the framework's table belongs to Default, Immortal or Los |
| `MyGCPlan.MyGCConstraints` | src/plan/mygc/global.rs:30-36 | moves objects, 2 header bits, 0 header words, 1 specialized scan; all other constraints are the defaults |
| `MyGCPlan.Constraints` | src/plan/mygc/global.rs:41-43 | gives the same constant whatever the plan's state |
| `MyGCPlan.GetSpaces` | src/plan/mygc/global.rs:45-51 | the base plan's spaces unchanged and in order, then exactly `mygc_space`, `immortal`, `los`; length is base + 3 |
| `MyGCPlan.GetUsedPages` | src/plan/mygc/global.rs:77-82 | equals the reserved pages summed over the three own spaces plus the base plan's used pages |
| `MyGCPlan.UsedPagesOverAllSpaces` | src/plan/mygc/global.rs:45-82 | the sum over all of `get_spaces` plus base usage equals used pages plus the sum over the base plan's spaces |
| `MyGCPlan.CollectionRequired` | src/plan/mygc/global.rs:53-55 | the decision is the base plan's policy applied to the plan and `space_full` |
| `MyGCPlan.CollectionRequiredIgnoresSpace` | src/plan/mygc/global.rs:53-55 | any two triggering-space arguments give the same decision |
| `MyGCPlan.Prepare` | src/plan/mygc/global.rs:61-63 | unreachable: no caller can meet its precondition |
| `MyGCPlan.Release` | src/plan/mygc/global.rs:65-67 | unreachable: no caller can meet its precondition |
| `MyGCPlan.ScheduleCollection` | src/plan/mygc/global.rs:73-75 | unreachable: no caller can meet its precondition |
| `MyGCPlan.GetAllocatorMapping` | src/plan/mygc/global.rs:69-71 | the plan hands out the `ALLOCATOR_MAPPING` table as characterised above, in either build |
| `MyGCPlan.HandleUserCollectionRequest` | src/plan/mygc/global.rs:84-91 | always returns normally and leaves the plan as it was |
| `MyGCPlan.UserRequestsChangeNothing` | src/plan/mygc/global.rs:84-91 | after any number of user requests, the plan, its used pages and its space list are unchanged |
| `MyGCPlan.SideMetadataSanity.constructor` | src/plan/mygc/global.rs:123 | a fresh checker has been fed nothing |
| `MyGCPlan.SideMetadataSanity.Verify` | src/plan/mygc/global.rs:124-127 | feeding one source appends it to what the checker has seen and changes nothing else |
| `MyGCPlan.New` | src/plan/mygc/global.rs:95-130 | spaces named `mygc_space`, `immortal`, `los`; all discontiguous; `immortal` and `los` zeroed; `mygc_space` zeroed iff `mygc_no_zeroing` is off; all built from MyGC's constraints and an empty plan-specific metadata list; the base plan built from the same arguments; the checker fed the base plan's metadata, then `mygc_space`'s, and nothing else |
| `MyGCPlan.OwnSpacesDistinct` | src/plan/mygc/global.rs:103-117 | the three spaces `new` builds are pairwise different |
| `MyGCMutator.MygcMutatorNoop` | src/plan/mygc/mutator.rs:39-41 | unreachable despite its name: no caller can meet its precondition |
| `MyGCMutator.RoutesToIntendedSpace` | src/plan/mygc/mutator.rs:26-63 | each semantics MyGC routes itself reaches a selector that the space mapping pairs with its intended space; if the framework's prefix keeps the reserved slots free, no other space is paired with that selector |
| `MyGCMutator.SingleSpaceRoutesAllToMyGCSpace` | src/plan/mygc/mutator.rs:33-63 | in the single-space build every semantics reaches `mygc_space`, and only it when the prefix keeps the reserved slots free |
| `MyGCMutator.CreateMyGCMutator` | src/plan/mygc/mutator.rs:43-76 | allocator mapping is `ALLOCATOR_MAPPING`; space mapping is `create_space_mapping`'s result followed by exactly the `mygc_space`, `immortal`, `los` bindings to slots 0, 1, 2; both hooks are `mygc_mutator_noop`; thread and plan stored unchanged; `NoBarrier`; the routing invariant holds |
| `ReferenceProcessing.New` | src/util/reference_processor.rs:73-81 | records the given semantics; empty table; nursery index 0; capacity at least 256; invariant `nursery_index <= len <= capacity` holds |
| `ReferenceProcessing.Get` | src/util/reference_processor.rs:83-89 | total over Soft, Weak and Phantom; returns the processor of exactly that semantics, freshly constructed and valid |
| `ReferenceProcessing.GetDistinct` | src/util/reference_processor.rs:42-46 | different semantics give different processors |
| `ReferenceProcessing.AddCandidate` | src/util/reference_processor.rs:91-93 | table, nursery index and semantics unchanged; the invariant is preserved |
| `ReferenceProcessing.AddCandidatesChangeNothing` | src/util/reference_processor.rs:91-93 | any number of calls leave table, nursery index and semantics unchanged and keep the invariant |
| `ReferenceProcessing.RegisteredTablesStayEmpty` | src/util/reference_processor.rs:42-93 | a registered processor's table stays empty, with nursery index 0, however often `add_candidate` is called |

## Left out

- The `Mutex`, `UnsafeCell`, `unsafe impl Sync` and `lazy_static!` wrappers: they exist for sharing and lazy initialisation. The processors are plain values, and the statics are constants.
- The unused trace debug flags and the commented-out `unforwarded_references` field in src/util/reference_processor.rs.
- Reference scanning, clearing, forwarding, strength ordering and candidate appending: the code does not implement them.
- The bodies of `BasePlan`, `ImmortalSpace`, `SideMetadataContext`, `SideMetadataSanity`, `create_allocator_mapping`, `create_space_mapping`, `Allocators::new` and `GCWorkScheduler`: they are not part of this model. `Allocators` records the inputs it was built from. A space is its construction arguments.
- SideMetadataSanity: the model records what the checker is fed and in what order. The overlap and alignment checks it runs are not modelled.
- New: the model also returns what the local sanity checker was fed, so that the feed order can be stated. The source discards the checker.
- New: `get_space_args` borrows the plan arguments mutably, and the heap layout it updates is not modelled.
- `warn!` logging in `handle_user_collection_request`: only "no state change" is kept.
- `downcast_ref::<MyGC<VM>>().unwrap()`: the mutator reads the MyGC record directly.
- `AllocationSemantics` and `AllocatorSelector` list the variants of mmtk-core's enums (Default, Immortal, Los, Code, ReadOnly, LargeCode). Their defining files are not part of this model. No proof depends on which variants beyond Default, Immortal and Los exist.
- Integer widths: allocator indices (`u8`) and page counts (`usize`) are unbounded naturals. The values used (0, 1, 2, 3) fit, and a wrap-around of the page sum is not modelled.
- src/plan/ng1gc/gc_work.rs: it only binds associated types and has no behaviour.
