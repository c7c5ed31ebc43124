/**
 * The adaptive wait optimiser: a learned wait estimate per operation key,
 * shrunk after first-try successes, pulled up after successes that needed
 * retries, and expanded temporarily after failures; with a bounded history
 * of results per key and a tracker that counts how long an estimate has
 * stayed within 10% of a baseline. Times are reals, the random jitter is a
 * parameter, and the pickle file is the already-read saved state.
 */
module AdaptiveWaits {
  import opened Wrappers

  /** Factor applied to the estimate after a first-try success. */
  const SuccessDelta: real := 0.97
  /** Factor applied to the used wait after a failure that will be retried. */
  const RetryExpansion: real := 1.35
  /** Relative distance from the baseline below which an update counts as stable. */
  const ConvergenceMargin: real := 0.1
  /** Learned estimates are clamped to [Floor, Ceiling]. */
  const Floor: real := 0.1
  const Ceiling: real := 10.0
  /** Cap on the temporary wait suggested after a failure. */
  const TemporaryCap: real := 15.0
  /** Estimate used for a key with no stored value. */
  const FallbackWait: real := 0.5
  /** The `min_wait` default of `get_wait_time`. */
  const DefaultMinWait: real := 0.05
  /** `deque(maxlen=100)`. */
  const HistoryLimit: nat := 100

  /** One `(wait_time_used, was_successful, retry_count)` history entry. */
  datatype Record = Record(used: real, success: bool, retryCount: int)

  /** One `convergence_data` entry. */
  datatype Convergence = Convergence(baseline: real, stableCount: nat)

  /** The decoded pickle: its three dictionaries (an absent one is empty). */
  datatype SavedState = SavedState(
    waits: map<string, real>,
    history: map<string, seq<Record>>,
    convergence: map<string, Convergence>)

  /** The pessimistic estimates the optimiser starts from. */
  const InitialDefaults: map<string, real> := map[
    "base_transition" := 5.0,
    "base_overview_load" := 0.5,
    "base_left_side_position" := 0.5,
    "tp_building_tap" := 0.5,
    "tp_entry_dialog" := 1.0,
    "tp_interior_load" := 0.5,
    "tp_workers_section_load" := 1.0,
    "pre_workers_click" := 0.5,
    "worker_list_ready" := 0.15,
    "category_filter_switch" := 0.15,
    "worker_selection_feedback" := 0.3,
    "worker_deselect_all" := 0.5,
    "worker_confirmation_dialog" := 1.0,
    "drone_interface_load" := 0.5,
    "drone_animation" := 1.5,
    "order_collection_animation" := 1.5,
    "order_check" := 0.5,
    "swipe_completion" := 0.2,
    "slow_swipe_completion" := 0.2,
    "template_check_interval" := 0.5,
    "template_click" := 0.5,
    "region_click" := 0.5,
    "retry_delay" := 0.5,
    "screen_transition" := 0.5,
    "pre_template_search" := 0.5,
    "post_click_wait" := 0.3,
    "post_region_click" := 0.3,
    "post_template_find" := 0.2,
    "post_navigation" := 0.5,
    "text_find" := 0.5,
    "timer_read_delay" := 1.0
  ]

  function Max(a: real, b: real): real { if a >= b then a else b }
  function Min(a: real, b: real): real { if a <= b then a else b }
  function Abs(a: real): real { if a >= 0.0 then a else -a }

  /** `max(0.1, min(v, 10.0))`. */
  function Clamp(v: real): (r: real)
    ensures Floor <= r <= Ceiling
    ensures Floor <= v <= Ceiling ==> r == v
    ensures v < Floor ==> r == Floor
    ensures v > Ceiling ==> r == Ceiling
  {
    Max(Floor, Min(v, Ceiling))
  }

  /** Appending to a `deque(maxlen=100)`: the oldest entry falls out when full. */
  function AppendBounded(h: seq<Record>, x: Record): (r: seq<Record>)
    requires |h| <= HistoryLimit
    ensures |r| == (if |h| < HistoryLimit then |h| + 1 else HistoryLimit)
    ensures r[|r| - 1] == x
    ensures forall j :: 0 <= j < |r| - 1 ==> r[j] == h[|h| + 1 - |r| + j]
  {
    if |h| < HistoryLimit then h + [x] else h[1..] + [x]
  }

  /** Appending several entries in order. */
  function AppendAll(h: seq<Record>, xs: seq<Record>): (r: seq<Record>)
    requires |h| <= HistoryLimit
    ensures |r| <= HistoryLimit
  {
    if xs == [] then h else AppendBounded(AppendAll(h, xs[..|xs| - 1]), xs[|xs| - 1])
  }

  /** The deque grows by one per entry until it holds 100. */
  lemma {:induction false} AppendAllLength(h: seq<Record>, xs: seq<Record>)
    requires |h| <= HistoryLimit
    ensures |AppendAll(h, xs)| == if |h| + |xs| <= HistoryLimit then |h| + |xs| else HistoryLimit
  {
    if xs != [] {
      AppendAllLength(h, xs[..|xs| - 1]);
    }
  }

  /** One append keeps a suffix in place and extends it by the new entry. */
  lemma AppendBoundedSuffix(prev: seq<Record>, ys: seq<Record>, x: Record)
    requires |prev| <= HistoryLimit && |ys| < HistoryLimit && |ys| <= |prev|
    requires forall i :: 0 <= i < |ys| ==> prev[|prev| - |ys| + i] == ys[i]
    ensures |AppendBounded(prev, x)| >= |ys| + 1
    ensures forall i :: 0 <= i < |ys| + 1 ==> AppendBounded(prev, x)[|AppendBounded(prev, x)| - |ys| - 1 + i] == (ys + [x])[i]
  {
    var r := AppendBounded(prev, x);
    forall i | 0 <= i < |ys| + 1
      ensures r[|r| - |ys| - 1 + i] == (ys + [x])[i]
    {
      if i < |ys| {
        var j := |r| - |ys| - 1 + i;
        assert r[j] == prev[|prev| + 1 - |r| + j];
      }
    }
  }

  /** The entries appended last sit at the end of the deque, in order, as many of them as fit. */
  lemma {:induction false} AppendAllSuffix(h: seq<Record>, xs: seq<Record>)
    requires |h| <= HistoryLimit && |xs| <= HistoryLimit
    ensures |AppendAll(h, xs)| >= |xs|
    ensures forall i :: 0 <= i < |xs| ==> AppendAll(h, xs)[|AppendAll(h, xs)| - |xs| + i] == xs[i]
  {
    if xs != [] {
      var init := xs[..|xs| - 1];
      AppendAllSuffix(h, init);
      AppendAllLength(h, init);
      AppendBoundedSuffix(AppendAll(h, init), init, xs[|xs| - 1]);
      assert init + [xs[|xs| - 1]] == xs;
    }
  }

  /** Once 100 entries have been appended the deque holds exactly them. */
  lemma KeepsLatest(h: seq<Record>, xs: seq<Record>)
    requires |h| <= HistoryLimit && |xs| == HistoryLimit
    ensures AppendAll(h, xs) == xs
  {
    AppendAllSuffix(h, xs);
    AppendAllLength(h, xs);
  }

  /** The stability test `abs(new - baseline) / baseline < 0.1`. */
  predicate Close(v: real, baseline: real)
    requires baseline > 0.0
  {
    Abs(v - baseline) / baseline < ConvergenceMargin
  }

  /**
   * The convergence entry after a stored estimate `v`: a new key starts at
   * baseline `v` with count 0 before the test, so its first update counts 1.
   */
  function NextConvergence(c: Option<Convergence>, v: real): (r: Convergence)
    requires v >= Floor
    requires c.Some? ==> c.value.baseline >= Floor
    ensures r.baseline >= Floor
    ensures c.None? ==> r == Convergence(v, 1)
    ensures r.stableCount == 0 ==> r.baseline == v
    ensures r.stableCount > 0 ==> Close(v, r.baseline)
  {
    var start := if c.Some? then c.value else Convergence(v, 0);
    if Close(v, start.baseline) then Convergence(start.baseline, start.stableCount + 1)
    else Convergence(v, 0)
  }

  /** The convergence entry of a key after the stored estimates `vs`, oldest first. */
  function Track(vs: seq<real>): Convergence
    requires |vs| >= 1
    requires forall i :: 0 <= i < |vs| ==> vs[i] >= Floor
  {
    if |vs| == 1 then NextConvergence(None, vs[0])
    else NextConvergence(Some(Track(vs[..|vs| - 1])), vs[|vs| - 1])
  }

  /**
   * What a stable count means: the baseline is one of the stored estimates,
   * and the last `stableCount` estimates all lie within 10% of it.
   */
  lemma {:induction false} StableCountMeaning(vs: seq<real>)
    requires |vs| >= 1
    requires forall i :: 0 <= i < |vs| ==> vs[i] >= Floor
    ensures Track(vs).stableCount <= |vs|
    ensures Track(vs).baseline in vs
    ensures Track(vs).baseline > 0.0
    ensures forall i :: |vs| - Track(vs).stableCount <= i < |vs| ==> Close(vs[i], Track(vs).baseline)
  {
    if |vs| > 1 {
      var init := vs[..|vs| - 1];
      StableCountMeaning(init);
      var prev := Track(init);
      var r := Track(vs);
      if r.stableCount > 0 {
        assert r.baseline == prev.baseline;
        forall i | |vs| - r.stableCount <= i < |vs|
          ensures Close(vs[i], r.baseline)
        {
          if i < |vs| - 1 {
            assert vs[i] == init[i];
          }
        }
        assert prev.baseline in init;
      }
    }
  }

  /** What `record_wait_result` decides: whether to retry, the wait to use next, and the value to learn. */
  datatype Verdict = Verdict(retry: bool, next: real, learned: Option<real>)

  /** The learning rule of an enabled optimiser, given the current estimate. */
  function Learn(current: real, used: real, success: bool, retryCount: int, maxRetries: int): (v: Verdict)
    ensures v.retry <==> !success && retryCount < maxRetries
    ensures v.learned.Some? <==> success
    ensures v.learned.Some? ==> v.next == v.learned.value
    ensures !success && !v.retry ==> v.next == current
    ensures v.retry ==> v.next <= TemporaryCap
  {
    if success then
      if retryCount == 0 then
        Verdict(false, current * SuccessDelta, Some(current * SuccessDelta))
      else
        var weighted := current * 0.7 + used * 1.05 * 0.3;
        Verdict(false, weighted, Some(weighted))
    else if retryCount < maxRetries then
      Verdict(true, Min(used * RetryExpansion, TemporaryCap), None)
    else
      Verdict(false, current, None)
  }

  /** A first-try success learns down: the new estimate is below the current one. */
  lemma LearnDownShrinks(current: real, used: real, maxRetries: int)
    requires current > 0.0
    ensures 0.0 < Learn(current, used, true, 0, maxRetries).next < current
  {
  }

  /**
   * A success after retries moves the estimate towards 105% of the wait
   * that worked: the result lies between the two, and is above the current
   * estimate exactly when that target is.
   */
  lemma LearnUpBetween(current: real, used: real, retryCount: int, maxRetries: int)
    requires retryCount != 0
    ensures var next := Learn(current, used, true, retryCount, maxRetries).next;
      Min(current, used * 1.05) <= next <= Max(current, used * 1.05)
      && (next > current <==> used * 1.05 > current)
  {
  }

  /** A retried failure waits longer next time (1.35 times as long), up to the 15 s cap. */
  lemma RetryExpands(current: real, used: real, retryCount: int, maxRetries: int)
    requires retryCount < maxRetries && 0.0 < used
    ensures var next := Learn(current, used, false, retryCount, maxRetries).next;
      (used < next || next == TemporaryCap) && next <= TemporaryCap
  {
  }

  /** `e · 0.97^n`, the estimate after `n` unclamped first-try successes. */
  function Decayed(e: real, n: nat): real
  {
    if n == 0 then e else Decayed(e, n - 1) * SuccessDelta
  }

  lemma {:induction false} DecayedBelow(e: real, n: nat)
    requires e >= 0.0
    ensures 0.0 <= Decayed(e, n) <= e
  {
    if n > 0 {
      DecayedBelow(e, n - 1);
    }
  }

  /** The stored estimate after `n` first-try successes in a row. */
  function Shrunk(e: real, n: nat): real
  {
    if n == 0 then e else Clamp(Shrunk(e, n - 1) * SuccessDelta)
  }

  /** Repeated first-try successes decay the estimate geometrically, never below the 0.1 floor. */
  lemma {:induction false} ShrunkGeometric(e: real, n: nat)
    requires Floor <= e <= Ceiling
    ensures Shrunk(e, n) == Max(Floor, Decayed(e, n))
  {
    if n > 0 {
      ShrunkGeometric(e, n - 1);
      DecayedBelow(e, n - 1);
    }
  }

  /** One more first-try success takes the stored estimate from `Shrunk(e, n)` to `Shrunk(e, n + 1)`. */
  lemma LearnedFirstTryIsShrunk(e: real, n: nat, used: real, maxRetries: int)
    ensures Clamp(Learn(Shrunk(e, n), used, true, 0, maxRetries).next) == Shrunk(e, n + 1)
  {
  }

  /**
   * The wait `get_wait_time` hands out for an estimate `base`: never below
   * `minWait`, and with the optimiser disabled the estimate itself.
   */
  function JitteredWait(enabled: bool, base: real, minWait: real, jitter: real): (r: real)
    requires 0.0 <= jitter < 1.0
    ensures r >= minWait
    ensures !enabled ==> r == Max(minWait, base)
  {
    if !enabled then Max(minWait, base)
    else Max(minWait, base * (1.0 + (jitter * 0.02 - 0.01)))
  }

  /** With the optimiser enabled the jitter moves the estimate by at most 1% either way. */
  lemma JitterWithinOnePercent(base: real, minWait: real, jitter: real)
    requires 0.0 <= jitter < 1.0 && base >= 0.0
    ensures var r := JitteredWait(true, base, minWait, jitter);
      r == minWait || 0.99 * base <= r <= 1.01 * base
  {
    var variance := 1.0 + (jitter * 0.02 - 0.01);
    assert 0.99 <= variance <= 1.01;
    assert 0.99 * base <= base * variance <= 1.01 * base;
  }

  predicate SavedValid(s: SavedState)
  {
    (forall k :: k in s.history ==> |s.history[k]| <= HistoryLimit)
    && (forall k :: k in s.convergence ==> s.convergence[k].baseline >= Floor)
  }

  /** The optimiser's state: one instance shared by every caller. */
  class WaitOptimizer {
    var enabled: bool
    var maxRetries: int
    var defaultWaits: map<string, real>
    var history: map<string, seq<Record>>
    var convergence: map<string, Convergence>

    /** History deques stay within their bound, and baselines stay positive so the stability test can divide. */
    ghost predicate Valid()
      reads this
    {
      SavedValid(SavedState(defaultWaits, history, convergence))
    }

    /** The optimiser as configured, with the saved state (if the file could be read) merged in. */
    constructor (enabled: bool, maxRetries: int, saved: Option<SavedState>)
      requires saved.Some? ==> SavedValid(saved.value)
      ensures Valid()
      ensures this.enabled == enabled && this.maxRetries == maxRetries
      ensures saved.None? ==> defaultWaits == InitialDefaults && history == map[] && convergence == map[]
      ensures saved.Some? ==>
        defaultWaits == InitialDefaults + saved.value.waits
        && history == saved.value.history && convergence == saved.value.convergence
    {
      this.enabled := enabled;
      this.maxRetries := maxRetries;
      defaultWaits := InitialDefaults;
      history := map[];
      convergence := map[];
      new;
      LoadSavedWaits(saved);
    }

    /** The stored estimate of a key, 0.5 if none. */
    function Current(key: string): real
      reads this
    {
      if key in defaultWaits then defaultWaits[key] else FallbackWait
    }

    /** The key's history, empty if it has none yet. */
    function HistoryOf(key: string): (h: seq<Record>)
      reads this
      requires Valid()
      ensures |h| <= HistoryLimit
    {
      if key in history then history[key] else []
    }

    function ConvergenceOf(key: string): (c: Option<Convergence>)
      reads this
      requires Valid()
      ensures c.Some? ==> c.value.baseline >= Floor
    {
      if key in convergence then Some(convergence[key]) else None
    }

    /** `get_wait_time` on the current state (`jitter` stands for `random.random()`). */
    function GetWaitTime(key: string, minWait: real, jitter: real): (w: real)
      reads this
      requires 0.0 <= jitter < 1.0
      ensures w >= minWait
      ensures !enabled ==> w == Max(minWait, Current(key))
      ensures enabled && Current(key) >= 0.0 ==> w == minWait || 0.99 * Current(key) <= w <= 1.01 * Current(key)
    {
      if enabled && Current(key) >= 0.0 then
        JitterWithinOnePercent(Current(key), minWait, jitter);
        JitteredWait(enabled, Current(key), minWait, jitter)
      else
        JitteredWait(enabled, Current(key), minWait, jitter)
    }

    /** `_load_saved_waits`: saved estimates override the defaults key by key, and the rest is replaced. */
    method LoadSavedWaits(saved: Option<SavedState>)
      requires saved.Some? ==> SavedValid(saved.value)
      requires Valid()
      modifies this
      ensures Valid()
      ensures enabled == old(enabled) && maxRetries == old(maxRetries)
      ensures saved.None? ==> defaultWaits == old(defaultWaits) && history == old(history) && convergence == old(convergence)
      ensures saved.Some? ==>
        defaultWaits == old(defaultWaits) + saved.value.waits
        && history == saved.value.history && convergence == saved.value.convergence
    {
      if saved.None? {
        return;
      }
      var waits := saved.value.waits;
      var pending := waits.Keys;
      while pending != {}
        invariant pending <= waits.Keys
        invariant enabled == old(enabled) && maxRetries == old(maxRetries)
        invariant history == old(history) && convergence == old(convergence)
        invariant defaultWaits == old(defaultWaits) + (waits - pending)
        decreases pending
      {
        var k :| k in pending;
        defaultWaits := defaultWaits[k := waits[k]];
        pending := pending - {k};
        assert defaultWaits == old(defaultWaits) + (waits - pending);
      }
      assert waits - pending == waits;
      history := saved.value.history;
      convergence := saved.value.convergence;
    }

    /** `_update_permanent_wait`: store the clamped value and advance the key's convergence entry. */
    method UpdatePermanentWait(key: string, newVal: real)
      requires Valid()
      modifies this
      ensures Valid()
      ensures enabled == old(enabled) && maxRetries == old(maxRetries) && history == old(history)
      ensures defaultWaits == old(defaultWaits)[key := Clamp(newVal)]
      ensures convergence == old(convergence)[key := NextConvergence(old(ConvergenceOf(key)), Clamp(newVal))]
      ensures Floor <= defaultWaits[key] <= Ceiling
    {
      var v := Clamp(newVal);
      var entry := NextConvergence(ConvergenceOf(key), v);
      defaultWaits := defaultWaits[key := v];
      convergence := convergence[key := entry];
    }

    /**
     * `record_wait_result`: a disabled optimiser answers `(False, used)` and
     * changes nothing; an enabled one appends exactly one history entry and
     * follows the learning rule, storing a clamped estimate only on success.
     */
    method RecordWaitResult(key: string, used: real, success: bool, retryCount: int) returns (retry: bool, next: real)
      requires Valid()
      modifies this
      ensures Valid()
      ensures enabled == old(enabled) && maxRetries == old(maxRetries)
      ensures !enabled ==>
        retry == false && next == used
        && defaultWaits == old(defaultWaits) && history == old(history) && convergence == old(convergence)
      ensures enabled ==>
        var v := Learn(old(Current(key)), used, success, retryCount, maxRetries);
        retry == v.retry && next == v.next
        && history == old(history)[key := AppendBounded(old(HistoryOf(key)), Record(used, success, retryCount))]
        && (v.learned.None? ==> defaultWaits == old(defaultWaits) && convergence == old(convergence))
        && (v.learned.Some? ==>
              defaultWaits == old(defaultWaits)[key := Clamp(v.learned.value)]
              && convergence == old(convergence)[key := NextConvergence(old(ConvergenceOf(key)), Clamp(v.learned.value))])
      ensures enabled && success ==> Floor <= defaultWaits[key] <= Ceiling
    {
      if !enabled {
        return false, used;
      }
      history := history[key := AppendBounded(HistoryOf(key), Record(used, success, retryCount))];
      var v := Learn(Current(key), used, success, retryCount, maxRetries);
      if v.learned.Some? {
        UpdatePermanentWait(key, v.learned.value);
      }
      return v.retry, v.next;
    }
  }
}
