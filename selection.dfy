/** Model selection: a walk over adjacent pairs of the catalog.

    For the pair (catalog[i], catalog[i + 1]) the samples are fitted with
    the two-term model a * catalog[i](x) + b * catalog[i + 1](x).  If the
    faster-growing term gets the larger coefficient the walk moves on to
    the next pair; otherwise it stops at i.  The curve fit is outside the
    model: a `PairFit` gives the fitted (a, b) for every pair of models. */
module Selection {
  import opened Complexities

  /** The fitted coefficients (a, b) of the two-term model of a pair. */
  type PairFit = (Model, Model) -> (real, real)

  /** The comparison of two models: 1 when the fitted coefficient of the
      first is below that of the second, -1 otherwise. */
  function Compare(fit: PairFit, m1: Model, m2: Model): (r: int)
    ensures r == 1 || r == -1
    ensures r == 1 <==> fit(m1, m2).0 < fit(m1, m2).1
  {
    if fit(m1, m2).0 < fit(m1, m2).1 then 1 else -1
  }

  /** The pair at position i compares as 1: the walk moves past it. */
  predicate Advances(fit: PairFit, i: nat)
    requires i + 1 < |ALL|
  {
    Compare(fit, ALL[i], ALL[i + 1]) == 1
  }

  /** The walk from position i: the last position of the catalog is
      returned as it is, otherwise the walk stops at the first pair that
      does not compare as 1. */
  function Find(fit: PairFit, i: nat): (r: nat)
    requires i < |ALL|
    ensures i <= r < |ALL|
    ensures forall k :: i <= k < r ==> Advances(fit, k)
    ensures r < |ALL| - 1 ==> !Advances(fit, r)
    decreases |ALL| - i
  {
    if i == |ALL| - 1 then i
    else if Compare(fit, ALL[i], ALL[i + 1]) == -1 then i
    else Find(fit, i + 1)
  }

  /** Position r is where a walk from 0 must stop: every pair before it
      advances, and r is the last position or its own pair does not. */
  predicate FirstStop(fit: PairFit, r: nat) {
    r < |ALL| &&
    (forall k :: 0 <= k < r ==> Advances(fit, k)) &&
    (r < |ALL| - 1 ==> !Advances(fit, r))
  }

  /** The walk from 0 returns exactly the one position that is a first
      stop. */
  lemma FindIsFirstStop(fit: PairFit, r: nat)
    ensures Find(fit, 0) == r <==> FirstStop(fit, r)
  {
  }

  /** The selected model: the 0-based walk's position in the catalog. */
  function Selected(fit: PairFit): (m: Model)
    ensures Rank(m) == Find(fit, 0)
    ensures forall k :: 0 <= k < Rank(m) ==> Advances(fit, k)
    ensures m != Exponential ==> !Advances(fit, Rank(m))
  {
    CatalogOrder();
    ALL[Find(fit, 0)]
  }

  /** When every pair advances, the exponential model is selected; when the
      first pair does not, the constant model is. */
  lemma SelectedExtremes(fit: PairFit)
    ensures (forall k :: 0 <= k < |ALL| - 1 ==> Advances(fit, k)) ==> Selected(fit) == Exponential
    ensures !Advances(fit, 0) ==> Selected(fit) == Const
  {
    CatalogOrder();
  }
}
