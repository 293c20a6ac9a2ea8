/** The walk from an element to the package that encloses it. */
module Utils {
  import opened Wrappers
  import opened Elements

  /** The element followed by its enclosing elements, innermost first. */
  function Chain(e: Element): (c: seq<Element>)
    ensures |c| >= 1 && c[0] == e
  {
    match e.enclosing
    case None => [e]
    case Some(p) => [e] + Chain(p)
  }

  /** Walking up the enclosing chain from `e` meets a package. */
  predicate ReachesPackage(e: Element) {
    e.kind == Package || (e.enclosing.Some? && ReachesPackage(e.enclosing.value))
  }

  /** The number of enclosing steps from `e` to the first package. */
  function PackageDepth(e: Element): nat
    requires ReachesPackage(e)
  {
    if e.kind == Package then 0 else 1 + PackageDepth(e.enclosing.value)
  }

  /**
   * The nearest package that encloses `e` (or `e` itself when it is one):
   * it lies PackageDepth(e) steps up the chain and no element strictly
   * between `e` and it is a package.
   */
  function NearestPackage(e: Element): (p: Element)
    requires ReachesPackage(e)
    ensures p.kind == Package
    ensures e.kind == Package ==> p == e
    ensures PackageDepth(e) < |Chain(e)| && Chain(e)[PackageDepth(e)] == p
    ensures forall j :: 0 <= j < PackageDepth(e) ==> Chain(e)[j].kind != Package
  {
    if e.kind == Package then e else NearestPackage(e.enclosing.value)
  }

  /** A package lies on the chain of `e` exactly when the walk reaches one. */
  lemma {:induction false} ReachesPackageIff(e: Element)
    ensures ReachesPackage(e) <==> exists i :: 0 <= i < |Chain(e)| && Chain(e)[i].kind == Package
  {
    if e.kind == Package {
      assert Chain(e)[0].kind == Package;
    }
    match e.enclosing
    case None =>
    case Some(p) =>
      ReachesPackageIff(p);
      if exists i :: 0 <= i < |Chain(e)| && Chain(e)[i].kind == Package {
        var i :| 0 <= i < |Chain(e)| && Chain(e)[i].kind == Package;
        if i > 0 {
          assert Chain(p)[i - 1] == Chain(e)[i];
        }
      }
      if ReachesPackage(p) {
        var i :| 0 <= i < |Chain(p)| && Chain(p)[i].kind == Package;
        assert Chain(e)[i + 1] == Chain(p)[i];
      }
  }

  /** `getPackage`: walk the enclosing chain until a package is reached. */
  method GetPackage(e: Element) returns (p: Element)
    requires ReachesPackage(e)
    ensures p == NearestPackage(e)
    ensures p.kind == Package
    ensures e.kind == Package ==> p == e
  {
    var element := e;
    while element.kind != Package
      invariant ReachesPackage(element)
      invariant NearestPackage(element) == NearestPackage(e)
      decreases element
    {
      element := element.enclosing.value;
    }
    p := element;
  }
}
