/**
 * Asset processors and their composition (MergedAssetProcessor, Then). A processor
 * IAssetProcessor<TIn, TOut> is its identifier, its two type parameters and its Process
 * function; the build context it is also handed is not modelled.
 */
module Processors {

  import opened Wrappers
  import opened Errors
  import opened Assets

  datatype Processor = Processor(identifier: string, inType: TypeTag, outType: TypeTag, process: Asset -> Result<Asset, Error>)

  /** The processor keeps its signature: given an asset of type TIn, it yields an asset of type TOut. */
  ghost predicate WellTyped(p: Processor) {
    forall a: Asset :: a.AssetType() == p.inType && p.process(a).Success? ==> p.process(a).value.AssetType() == p.outType
  }

  /**
   * `first.Then(second)`: a MergedAssetProcessor named "first-second" that awaits the first
   * processor and hands its result to the second; an exception in the first skips the second.
   * The type system demands that the first's TOut is the second's TIn.
   */
  function Then(first: Processor, second: Processor): (merged: Processor)
    requires first.outType == second.inType
    ensures merged.identifier == first.identifier + "-" + second.identifier
    ensures merged.inType == first.inType && merged.outType == second.outType
  {
    Processor(first.identifier + "-" + second.identifier, first.inType, second.outType,
      (a: Asset) => match first.process(a)
        case Failure(e) => Failure(e)
        case Success(intermediate) => second.process(intermediate))
  }

  /** The merged Process runs the first processor, then the second on its result. */
  lemma ThenProcess(first: Processor, second: Processor, a: Asset)
    requires first.outType == second.inType
    ensures first.process(a).Failure? ==> Then(first, second).process(a) == first.process(a)
    ensures first.process(a).Success? ==> Then(first, second).process(a) == second.process(first.process(a).value)
  {
  }

  /** Composing two well-typed processors gives a well-typed processor. */
  lemma ThenWellTyped(first: Processor, second: Processor)
    requires first.outType == second.inType
    requires WellTyped(first) && WellTyped(second)
    ensures WellTyped(Then(first, second))
  {
    forall a: Asset | a.AssetType() == first.inType && Then(first, second).process(a).Success?
      ensures Then(first, second).process(a).value.AssetType() == second.outType
    {
      ThenProcess(first, second, a);
    }
  }

  /** `a.Then(b).Then(c)` and `a.Then(b.Then(c))` have the same identifier, types and results. */
  lemma ThenAssociative(a: Processor, b: Processor, c: Processor, x: Asset)
    requires a.outType == b.inType && b.outType == c.inType
    ensures Then(Then(a, b), c).identifier == Then(a, Then(b, c)).identifier
    ensures Then(Then(a, b), c).inType == Then(a, Then(b, c)).inType
    ensures Then(Then(a, b), c).outType == Then(a, Then(b, c)).outType
    ensures Then(Then(a, b), c).process(x) == Then(a, Then(b, c)).process(x)
  {
    assert (a.identifier + "-" + b.identifier) + "-" + c.identifier == a.identifier + "-" + (b.identifier + "-" + c.identifier);
    ThenProcess(Then(a, b), c, x);
    ThenProcess(a, b, x);
    ThenProcess(a, Then(b, c), x);
    if a.process(x).Success? {
      ThenProcess(b, c, a.process(x).value);
    }
  }
}
