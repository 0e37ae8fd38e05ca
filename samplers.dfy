/**
 Sampler-name resolution (`find_sampler_ix_byname`). The engine's sampler
 catalogue is an ordered list of samplers, each carrying a list of aliases;
 it is passed in as a value here, since it is owned by the engine.
 */
module SamplerResolver {

  import opened PyText

  /** Each entry holds the aliases of one sampler, in catalogue order. */
  type Catalogue = seq<seq<string>>

  /** The index of the sampler whose aliases contain `key`, scanning from `from`. */
  function IndexFrom(catalogue: Catalogue, key: string, from: nat): nat
    requires from <= |catalogue|
    decreases |catalogue| - from
  {
    if from == |catalogue| then 0
    else if key in catalogue[from] then from
    else IndexFrom(catalogue, key, from + 1)
  }

  /** The sampler index a user-supplied name resolves to. */
  function Resolve(catalogue: Catalogue, name: string): nat {
    IndexFrom(catalogue, Lower(name), 0)
  }

  predicate Known(catalogue: Catalogue, key: string) {
    exists j :: 0 <= j < |catalogue| && key in catalogue[j]
  }

  /** The scan from `from` finds the first match at or after `from`, or falls back to 0. */
  lemma {:induction false} IndexFromFirstMatch(catalogue: Catalogue, key: string, from: nat)
    requires from <= |catalogue|
    ensures var ix := IndexFrom(catalogue, key, from);
      if exists j :: from <= j < |catalogue| && key in catalogue[j] then
        from <= ix < |catalogue| && key in catalogue[ix]
        && forall j :: from <= j < ix ==> key !in catalogue[j]
      else ix == 0
    decreases |catalogue| - from
  {
    if from < |catalogue| && key !in catalogue[from] {
      IndexFromFirstMatch(catalogue, key, from + 1);
      if exists j :: from <= j < |catalogue| && key in catalogue[j] {
        var j :| from <= j < |catalogue| && key in catalogue[j];
        assert from + 1 <= j;
      }
    }
  }

  /** A name whose lower-cased form is an alias resolves to the first sampler carrying it. */
  lemma ResolveFirstMatch(catalogue: Catalogue, name: string)
    requires Known(catalogue, Lower(name))
    ensures var ix := Resolve(catalogue, name);
      ix < |catalogue| && Lower(name) in catalogue[ix]
      && forall j :: 0 <= j < ix ==> Lower(name) !in catalogue[j]
  {
    IndexFromFirstMatch(catalogue, Lower(name), 0);
  }

  /** An unknown name (and any name, on an empty catalogue) falls back to sampler 0. */
  lemma ResolveUnknownIsZero(catalogue: Catalogue, name: string)
    requires !Known(catalogue, Lower(name))
    ensures Resolve(catalogue, name) == 0
  {
    IndexFromFirstMatch(catalogue, Lower(name), 0);
  }

  /** On a non-empty catalogue the resolved index always names a sampler. */
  lemma ResolveInBounds(catalogue: Catalogue, name: string)
    requires |catalogue| > 0
    ensures Resolve(catalogue, name) < |catalogue|
  {
    IndexFromFirstMatch(catalogue, Lower(name), 0);
  }

  /** Names that differ only in letter case resolve to the same sampler. */
  lemma ResolveIgnoresCase(catalogue: Catalogue, a: string, b: string)
    requires SameIgnoringCase(a, b)
    ensures Resolve(catalogue, a) == Resolve(catalogue, b)
  {
    LowerIgnoresCase(a, b);
  }

  /** `find_sampler_ix_byname`: the scan with an early exit on the first match. */
  method FindSamplerIndex(catalogue: Catalogue, name: string) returns (found: nat)
    ensures Known(catalogue, Lower(name)) ==>
      found < |catalogue| && Lower(name) in catalogue[found]
      && forall j :: 0 <= j < found ==> Lower(name) !in catalogue[j]
    ensures !Known(catalogue, Lower(name)) ==> found == 0
    ensures found == Resolve(catalogue, name)
  {
    found := 0;
    var key := Lower(name);
    var ix := 0;
    while ix < |catalogue|
      invariant 0 <= ix <= |catalogue|
      invariant found == 0
      invariant forall j :: 0 <= j < ix ==> key !in catalogue[j]
      invariant IndexFrom(catalogue, key, ix) == IndexFrom(catalogue, key, 0)
    {
      if key in catalogue[ix] {
        found := ix;
        break;
      }
      ix := ix + 1;
    }
  }

}
