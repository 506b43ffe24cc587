/**
 * The MyGC plan: a base plan plus three spaces (`mygc_space`, `immortal`,
 * `los`), with no collection algorithm. Its pause hooks must never run; a
 * user-requested collection is ignored.
 */
module MyGCPlan {
  import opened GcTypes
  import opened MyGCAllocation
  import Wrappers

  /** The framework's shared bookkeeping: its own spaces and its own page usage. */
  datatype BasePlan = BasePlan(spaces: seq<Space>, usedPages: nat)

  /** The plan record: the base plan and the three spaces MyGC owns. */
  datatype MyGC = MyGC(base: BasePlan, mygcSpace: Space, immortal: Space, los: Space)

  /** The build-time features of this plan, as booleans. */
  datatype Features = Features(mygcMultiSpace: bool, mygcNoZeroing: bool)

  /** What the base plan's side-metadata check or a space's feeds to the sanity checker. */
  datatype MetadataSource = BasePlanMetadata(base: BasePlan) | SpaceMetadata(space: Space)

  /**
   * `MYGC_CONSTRAINTS`: the framework defaults (`PlanConstraints::default()`,
   * given as `defaults`) with four fields set.
   */
  function MyGCConstraints(defaults: PlanConstraints): (c: PlanConstraints)
    ensures c.movesObjects && c.gcHeaderBits == 2 && c.gcHeaderWords == 0 && c.numSpecializedScans == 1
    ensures c.others == defaults.others
  {
    defaults.(movesObjects := true, gcHeaderBits := 2, gcHeaderWords := 0, numSpecializedScans := 1)
  }

  /** `Plan::constraints`: the plan constant, whatever the plan's state. */
  function Constraints(p: MyGC, defaults: PlanConstraints): (c: PlanConstraints)
    ensures c.movesObjects && c.gcHeaderBits == 2 && c.gcHeaderWords == 0 && c.numSpecializedScans == 1
    ensures c.others == defaults.others
  {
    MyGCConstraints(defaults)
  }

  /** The spaces MyGC adds to the base plan's, in the order it lists them. */
  function OwnSpaces(p: MyGC): seq<Space>
  {
    [p.mygcSpace, p.immortal, p.los]
  }

  /** Every space the plan reports: the base plan's, then its own. */
  function AllSpaces(p: MyGC): seq<Space>
  {
    p.base.spaces + OwnSpaces(p)
  }

  /** `Plan::get_spaces`: the base plan's list, extended by three pushes. */
  method GetSpaces(p: MyGC) returns (ret: seq<Space>)
    ensures ret == AllSpaces(p)
    ensures |ret| == |p.base.spaces| + 3
    ensures ret[..|p.base.spaces|] == p.base.spaces
    ensures ret[|p.base.spaces|] == p.mygcSpace
    ensures ret[|p.base.spaces| + 1] == p.immortal
    ensures ret[|p.base.spaces| + 2] == p.los
  {
    ret := p.base.spaces;
    ret := ret + [p.mygcSpace];
    ret := ret + [p.immortal];
    ret := ret + [p.los];
  }

  /** The total of the reserved pages of a list of spaces. */
  function SumReserved(spaces: seq<Space>, reservedPages: Space -> nat): nat
  {
    if spaces == [] then 0 else reservedPages(spaces[0]) + SumReserved(spaces[1..], reservedPages)
  }

  lemma {:induction false} SumReservedAppend(a: seq<Space>, b: seq<Space>, reservedPages: Space -> nat)
    ensures SumReserved(a + b, reservedPages) == SumReserved(a, reservedPages) + SumReserved(b, reservedPages)
  {
    if a == [] {
      assert a + b == b;
    } else {
      assert (a + b)[1..] == a[1..] + b;
      SumReservedAppend(a[1..], b, reservedPages);
    }
  }

  /**
   * `Plan::get_used_pages`. `reservedPages` stands for each space's
   * `reserved_pages`, whose accounting is internal to the space policy.
   */
  function GetUsedPages(p: MyGC, reservedPages: Space -> nat): (n: nat)
    ensures n == SumReserved(OwnSpaces(p), reservedPages) + p.base.usedPages
  {
    assert SumReserved([p.los], reservedPages) == reservedPages(p.los) by {
      assert [p.los][1..] == [];
    }
    assert SumReserved([p.immortal, p.los], reservedPages) == reservedPages(p.immortal) + reservedPages(p.los) by {
      assert [p.immortal, p.los][1..] == [p.los];
    }
    assert OwnSpaces(p)[1..] == [p.immortal, p.los];
    reservedPages(p.mygcSpace) + reservedPages(p.immortal) + reservedPages(p.los) + p.base.usedPages
  }

  /**
   * Summing over everything `get_spaces` lists counts the base plan's spaces
   * on top of what `get_used_pages` reports; the base plan's own figure is
   * the one `get_used_pages` adds instead.
   */
  lemma {:induction false} UsedPagesOverAllSpaces(p: MyGC, reservedPages: Space -> nat)
    ensures SumReserved(AllSpaces(p), reservedPages) + p.base.usedPages
         == GetUsedPages(p, reservedPages) + SumReserved(p.base.spaces, reservedPages)
  {
    SumReservedAppend(p.base.spaces, OwnSpaces(p), reservedPages);
  }

  /**
   * `Plan::collection_required`: the base plan's policy applied to this plan
   * and `spaceFull`. `basePolicy` stands for `BasePlan::collection_required`.
   */
  function CollectionRequired(p: MyGC, spaceFull: bool, space: Wrappers.Option<Space>, basePolicy: (MyGC, bool) -> bool): (r: bool)
    ensures r == basePolicy(p, spaceFull)
  {
    basePolicy(p, spaceFull)
  }

  /** The triggering space plays no part in the decision. */
  lemma CollectionRequiredIgnoresSpace(p: MyGC, spaceFull: bool, s1: Wrappers.Option<Space>, s2: Wrappers.Option<Space>, basePolicy: (MyGC, bool) -> bool)
    ensures CollectionRequired(p, spaceFull, s1, basePolicy) == CollectionRequired(p, spaceFull, s2, basePolicy)
  {
  }

  /** `Plan::prepare`: unreachable in MyGC, so no caller may reach it. */
  method Prepare(p: MyGC, tls: VMWorkerThread)
    requires false
  {
  }

  /** `Plan::release`: unreachable in MyGC, so no caller may reach it. */
  method Release(p: MyGC, tls: VMWorkerThread)
    requires false
  {
  }

  /** `Plan::schedule_collection`: "GC triggered in mygc" is unreachable. */
  method ScheduleCollection(p: MyGC)
    requires false
  {
  }

  /** `Plan::get_allocator_mapping`: the plan's `ALLOCATOR_MAPPING`. */
  method GetAllocatorMapping(
    p: MyGC,
    features: Features,
    createAllocatorMapping: (ReservedAllocators, bool) -> AllocatorMapping,
    reservedDefault: ReservedAllocators)
    returns (mapping: AllocatorMapping)
    requires features.mygcMultiSpace ==> IsTotal(createAllocatorMapping(MultiSpaceReservedAllocators(reservedDefault), false))
    ensures IsMyGCAllocatorMapping(mapping, features.mygcMultiSpace, createAllocatorMapping(MultiSpaceReservedAllocators(reservedDefault), false))
  {
    mapping := InitAllocatorMapping(features.mygcMultiSpace, createAllocatorMapping, reservedDefault);
  }

  /**
   * `Plan::handle_user_collection_request`: only a warning is logged; the
   * plan comes back as it was and the call returns normally.
   */
  function HandleUserCollectionRequest(p: MyGC, tls: VMMutatorThread, force: bool, exhaustive: bool): (q: MyGC)
    ensures q == p
  {
    p
  }

  /** The plan after `n` user collection requests in a row. */
  function UserRequests(p: MyGC, tls: VMMutatorThread, n: nat): MyGC
  {
    if n == 0 then p else HandleUserCollectionRequest(UserRequests(p, tls, n - 1), tls, false, false)
  }

  /** Any number of user collection requests leave used pages and spaces alone. */
  lemma {:induction false} UserRequestsChangeNothing(p: MyGC, tls: VMMutatorThread, n: nat, reservedPages: Space -> nat)
    ensures UserRequests(p, tls, n) == p
    ensures GetUsedPages(UserRequests(p, tls, n), reservedPages) == GetUsedPages(p, reservedPages)
    ensures AllSpaces(UserRequests(p, tls, n)) == AllSpaces(p)
  {
    if n > 0 {
      UserRequestsChangeNothing(p, tls, n - 1, reservedPages);
    }
  }

  /**
   * The side-metadata sanity checker. It is fed the metadata of the base plan
   * and of spaces in turn; `verified` is what it has been fed, in order. The
   * overlap and alignment checks it runs on them are not part of this model.
   */
  class SideMetadataSanity {
    var verified: seq<MetadataSource>

    constructor ()
      ensures verified == []
    {
      verified := [];
    }

    /** `verify_side_metadata_sanity`: feed one source's metadata to the checker. */
    method Verify(source: MetadataSource)
      modifies this
      ensures verified == old(verified) + [source]
    {
      verified := verified + [source];
    }
  }

  /**
   * `MyGC::new`. `newBase` stands for `BasePlan::new` and `defaults` for
   * `PlanConstraints::default()`. Besides the plan, the model returns what
   * the sanity checker (local to `new`) was fed, so that its order can be stated.
   */
  method New(
    args: GeneralPlanArgs,
    features: Features,
    defaults: PlanConstraints,
    newBase: CreateSpecificPlanArgs -> BasePlan)
    returns (res: MyGC, fed: seq<MetadataSource>)
    ensures res.mygcSpace.args.name == "mygc_space"
    ensures res.immortal.args.name == "immortal"
    ensures res.los.args.name == "los"
    ensures res.mygcSpace.args.zeroed == !features.mygcNoZeroing
    ensures res.immortal.args.zeroed && res.los.args.zeroed
    ensures forall s :: s in OwnSpaces(res) ==> s.args.vmRequest == Discontiguous
    ensures forall s :: s in OwnSpaces(res) ==>
              s.args.planArgs == CreateSpecificPlanArgs(args, MyGCConstraints(defaults), [])
    ensures res.base == newBase(CreateSpecificPlanArgs(args, MyGCConstraints(defaults), []))
    ensures fed == [BasePlanMetadata(res.base), SpaceMetadata(res.mygcSpace)]
  {
    var planArgs := CreateSpecificPlanArgs(args, MyGCConstraints(defaults), []);
    var mygcSpace := Space(GetSpaceArgs(planArgs, "mygc_space", !features.mygcNoZeroing, Discontiguous));
    var immortal := Space(GetSpaceArgs(planArgs, "immortal", true, Discontiguous));
    var los := Space(GetSpaceArgs(planArgs, "los", true, Discontiguous));
    res := MyGC(newBase(planArgs), mygcSpace, immortal, los);

    var checker := new SideMetadataSanity();
    checker.Verify(BasePlanMetadata(res.base));
    checker.Verify(SpaceMetadata(res.mygcSpace));
    fed := checker.verified;
  }

  /** The three spaces MyGC builds are told apart by their names. */
  lemma {:induction false} OwnSpacesDistinct(p: MyGC)
    requires p.mygcSpace.args.name == "mygc_space"
    requires p.immortal.args.name == "immortal"
    requires p.los.args.name == "los"
    ensures p.mygcSpace != p.immortal && p.mygcSpace != p.los && p.immortal != p.los
  {
    assert "mygc_space"[0] != "immortal"[0] && "mygc_space"[0] != "los"[0] && "immortal"[0] != "los"[0];
  }
}
