/**
 * The reference processor registry: one processor per reference strength
 * (soft, weak, phantom), each holding a table of candidate references and the
 * index where the nursery part of that table starts. In this code base
 * `add_candidate` takes no reference and stores nothing, and no operation
 * scans, clears or forwards the table.
 */
module ReferenceProcessing {

  /** A heap address (a machine word). */
  type Address = nat

  /** The initial capacity of a processor's table. */
  const InitialSize: nat := 256

  /** `Semantics`: the strength of the references a processor keeps. */
  datatype Semantics = Soft | Weak | Phantom

  /**
   * `ReferenceprocessorSync`: the lock-protected state. `capacity` is the
   * capacity of the table's storage, at least its length.
   */
  datatype ReferenceprocessorSync = ReferenceprocessorSync(
    references: seq<Address>,
    capacity: nat,
    nurseryIndex: nat)

  /** `ReferenceProcessor`. */
  datatype ReferenceProcessor = ReferenceProcessor(sync: ReferenceprocessorSync, semantics: Semantics)

  /** The table invariant: the nursery starts inside the table, which fits its storage. */
  predicate Valid(p: ReferenceProcessor)
  {
    p.sync.nurseryIndex <= |p.sync.references| <= p.sync.capacity
  }

  /** `ReferenceProcessor::new`: an empty table with room for `InitialSize` entries. */
  function New(semantics: Semantics): (p: ReferenceProcessor)
    ensures p.semantics == semantics
    ensures p.sync.references == [] && p.sync.nurseryIndex == 0
    ensures p.sync.capacity >= InitialSize
    ensures Valid(p)
  {
    ReferenceProcessor(ReferenceprocessorSync([], InitialSize, 0), semantics)
  }

  /** The three process-wide processors. */
  const SoftReferenceProcessor: ReferenceProcessor := New(Soft)
  const WeakReferenceProcessor: ReferenceProcessor := New(Weak)
  const PhantomReferenceProcessor: ReferenceProcessor := New(Phantom)

  /** `ReferenceProcessor::get`: the process-wide processor for a strength. */
  function Get(semantics: Semantics): (p: ReferenceProcessor)
    ensures p.semantics == semantics
    ensures p.sync.references == [] && p.sync.nurseryIndex == 0
    ensures Valid(p)
  {
    match semantics
    case Soft => SoftReferenceProcessor
    case Weak => WeakReferenceProcessor
    case Phantom => PhantomReferenceProcessor
  }

  /** Different strengths are served by different processors. */
  lemma GetDistinct(s1: Semantics, s2: Semantics)
    requires s1 != s2
    ensures Get(s1) != Get(s2)
  {
  }

  /** `add_candidate`: no argument and an empty body, so the processor is left as it was. */
  function AddCandidate(p: ReferenceProcessor): (q: ReferenceProcessor)
    ensures q.sync.references == p.sync.references
    ensures q.sync.nurseryIndex == p.sync.nurseryIndex
    ensures q.semantics == p.semantics
    ensures Valid(p) ==> Valid(q)
  {
    p
  }

  /** The processor after `n` calls of `add_candidate`. */
  function AddCandidates(p: ReferenceProcessor, n: nat): ReferenceProcessor
  {
    if n == 0 then p else AddCandidate(AddCandidates(p, n - 1))
  }

  /**
   * However many times `add_candidate` is called, the table, the nursery index
   * and the invariant stay as they were.
   */
  lemma {:induction false} AddCandidatesChangeNothing(p: ReferenceProcessor, n: nat)
    ensures AddCandidates(p, n).sync.references == p.sync.references
    ensures AddCandidates(p, n).sync.nurseryIndex == p.sync.nurseryIndex
    ensures AddCandidates(p, n).semantics == p.semantics
    ensures Valid(p) ==> Valid(AddCandidates(p, n))
  {
    if n > 0 {
      AddCandidatesChangeNothing(p, n - 1);
    }
  }

  /** So a registered processor's table is still empty after any number of calls. */
  lemma RegisteredTablesStayEmpty(s: Semantics, n: nat)
    ensures AddCandidates(Get(s), n).sync.references == []
    ensures AddCandidates(Get(s), n).sync.nurseryIndex == 0
    ensures Valid(AddCandidates(Get(s), n))
  {
    AddCandidatesChangeNothing(Get(s), n);
  }
}
