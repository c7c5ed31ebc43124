/**
 * The bounded search that every retry and navigation loop of the bot performs:
 * make at most `n` observations and stop at the first one that succeeds.
 */
module BoundedSearch {
  import opened Wrappers

  /** The index of the first true entry among the first `n` entries of `obs`, if any. */
  function FirstHit(obs: seq<bool>, n: nat): (r: Option<nat>)
    requires n <= |obs|
    ensures r.Some? ==> r.value < n && obs[r.value]
    ensures r.Some? ==> forall j :: 0 <= j < r.value ==> !obs[j]
    ensures r.None? <==> forall j :: 0 <= j < n ==> !obs[j]
  {
    if n == 0 then None
    else
      var earlier := FirstHit(obs, n - 1);
      if earlier.Some? then earlier
      else if obs[n - 1] then Some(n - 1)
      else None
  }

  /** The first success among the first `n` observations is the one at `k` when all before it failed. */
  lemma FirstHitAt(obs: seq<bool>, n: nat, k: nat)
    requires k < n <= |obs| && obs[k]
    requires forall j :: 0 <= j < k ==> !obs[j]
    ensures FirstHit(obs, n) == Some(k)
  {
  }

  /** Looking further never changes a hit that has already been found. */
  lemma {:induction false} FirstHitStable(obs: seq<bool>, n: nat, m: nat)
    requires n <= m <= |obs|
    requires FirstHit(obs, n).Some?
    ensures FirstHit(obs, m) == FirstHit(obs, n)
    decreases m - n
  {
    if m > n {
      FirstHitStable(obs, n, m - 1);
    }
  }
}
