/**
 * The generic retry engine that every click goes through, and the two click
 * helpers built on it. The action's outcome on each attempt is an input
 * (an oracle sequence), as is the random jitter of each wait; the sleeps the
 * engine takes are returned instead of performed.
 */
module ClickHelper {
  import opened Wrappers
  import opened BoundedSearch
  import opened AdaptiveWaits

  /**
   * How many times `_execute_action` calls the action when every attempt
   * fails: `range(m + 1)` bounds the loop, and after a failure it continues
   * only while the optimiser says to retry (`retry_count < its max_retries`),
   * which a disabled optimiser never says.
   */
  function AttemptBudget(m: int, enabled: bool, optimiserMax: int): (b: nat)
    ensures b <= (if m < 0 then 0 else m + 1)
    ensures m >= 0 ==> b >= 1
    ensures !enabled ==> b <= 1
  {
    if m < 0 then 0
    else if !enabled then 1
    else 1 + (if m <= optimiserMax then m else if optimiserMax >= 0 then optimiserMax else 0)
  }

  /** The engine stops after attempt `k` exactly when `k + 1` attempts use up the budget. */
  lemma BudgetReached(m: int, enabled: bool, optimiserMax: int, k: nat)
    requires 0 <= k <= m
    requires k == 0 || (enabled && k <= optimiserMax)
    requires !(enabled && k < optimiserMax) || k >= m
    ensures k + 1 == AttemptBudget(m, enabled, optimiserMax)
  {
  }

  /** The history entries of consecutive attempts with the given waits; only the last may be a success. */
  function Trail(ws: seq<real>, lastOk: bool): (r: seq<Record>)
    ensures |r| == |ws|
    ensures forall i :: 0 <= i < |ws| ==> r[i] == Record(ws[i], lastOk && i == |ws| - 1, i)
  {
    seq(|ws|, i requires 0 <= i < |ws| => Record(ws[i], lastOk && i == |ws| - 1, i))
  }

  lemma TrailSnoc(ws: seq<real>, w: real, ok: bool)
    ensures Trail(ws + [w], ok) == Trail(ws, false) + [Record(w, ok, |ws|)]
  {
  }

  lemma AppendAllSnoc(h: seq<Record>, xs: seq<Record>, x: Record)
    requires |h| <= HistoryLimit
    ensures AppendAll(h, xs + [x]) == AppendBounded(AppendAll(h, xs), x)
  {
    assert (xs + [x])[..|xs|] == xs;
  }

  /** The extra sleep after a failed attempt that will be retried: `next_wait - wait_time` when positive. */
  function ExtraSleep(w: real): real
  {
    Max(0.0, Min(w * RetryExpansion, TemporaryCap) - w)
  }

  /**
   * What the engine may wait on an attempt, given the optimiser's mode and
   * its estimate for the action: at least the 0.05 s minimum, the estimate
   * itself when adaptive waits are off, and otherwise within 1% of it.
   */
  predicate InBand(w: real, enabled: bool, estimate: real)
  {
    w >= DefaultMinWait
    && (!enabled ==> w == Max(DefaultMinWait, estimate))
    && (enabled && estimate >= 0.0 ==> w == DefaultMinWait || 0.99 * estimate <= w <= 1.01 * estimate)
  }

  /** The wait of one attempt, `get_wait_time(action_name)`. */
  method FetchWait(opt: WaitOptimizer, name: string, jitter: real) returns (w: real)
    requires 0.0 <= jitter < 1.0
    ensures InBand(w, opt.enabled, opt.Current(name))
  {
    w := opt.GetWaitTime(name, DefaultMinWait, jitter);
  }

  /** The optimiser's history after attempts with waits `ws`, the last succeeding when `lastOk`. */
  ghost function Logged(hist0: map<string, seq<Record>>, name: string, h0: seq<Record>, ws: seq<real>, lastOk: bool): map<string, seq<Record>>
    requires |h0| <= HistoryLimit
  {
    if |ws| == 0 then hist0 else hist0[name := AppendAll(h0, Trail(ws, lastOk))]
  }

  /**
   * One attempt's report to the optimiser (`record_wait_result`), stated in
   * terms of the attempts before it: `ws` are their waits, all failures.
   */
  method Report(opt: WaitOptimizer, name: string, ghost h0: seq<Record>, ghost hist0: map<string, seq<Record>>,
                ws: seq<real>, w: real, ok: bool)
    returns (retry: bool, next: real)
    requires opt.Valid() && |h0| <= HistoryLimit
    requires h0 == (if name in hist0 then hist0[name] else [])
    requires opt.history == Logged(hist0, name, h0, ws, false)
    modifies opt
    ensures opt.Valid() && opt.enabled == old(opt.enabled) && opt.maxRetries == old(opt.maxRetries)
    ensures !opt.enabled ==>
      !retry && opt.defaultWaits == old(opt.defaultWaits) && opt.history == old(opt.history) && opt.convergence == old(opt.convergence)
    ensures opt.enabled ==> opt.history == Logged(hist0, name, h0, ws + [w], ok)
    ensures opt.enabled ==> (retry <==> !ok && |ws| < opt.maxRetries)
    ensures retry ==> next == Min(w * RetryExpansion, TemporaryCap)
    ensures !ok ==> opt.defaultWaits == old(opt.defaultWaits) && opt.convergence == old(opt.convergence)
    ensures ok && opt.enabled ==>
      opt.defaultWaits == old(opt.defaultWaits)[name := Clamp(Learn(old(opt.Current(name)), w, true, |ws|, opt.maxRetries).next)]
    ensures ok && opt.enabled ==>
      opt.convergence == old(opt.convergence)[name := NextConvergence(old(opt.ConvergenceOf(name)), Clamp(Learn(old(opt.Current(name)), w, true, |ws|, opt.maxRetries).next))]
  {
    ghost var before := opt.HistoryOf(name);
    assert before == AppendAll(h0, Trail(ws, false));
    retry, next := opt.RecordWaitResult(name, w, ok, |ws|);
    TrailSnoc(ws, w, ok);
    AppendAllSnoc(h0, Trail(ws, false), Record(w, ok, |ws|));
  }

  /**
   * One pass of the loop in `_execute_action` after the failed attempts with
   * waits `ws`: wait, call the action (outcome `ok`),
   * report, then stop on success or when no retry follows, or else take the
   * extra sleep `extra` before the next attempt.
   */
  method Attempt(opt: WaitOptimizer, name: string, ghost h0: seq<Record>, ghost hist0: map<string, seq<Record>>,
                 ws: seq<real>, jitter: real, ok: bool, m: int)
    returns (stop: bool, w: real, extra: real)
    requires opt.Valid() && |h0| <= HistoryLimit
    requires h0 == (if name in hist0 then hist0[name] else [])
    requires opt.history == Logged(hist0, name, h0, ws, false)
    requires 0.0 <= jitter < 1.0
    requires |ws| <= m && (|ws| == 0 || (opt.enabled && |ws| <= opt.maxRetries))
    modifies opt
    ensures opt.Valid() && opt.enabled == old(opt.enabled) && opt.maxRetries == old(opt.maxRetries)
    ensures InBand(w, old(opt.enabled), old(opt.Current(name)))
    ensures ok ==> stop
    ensures stop && !ok ==> |ws| + 1 == AttemptBudget(m, opt.enabled, opt.maxRetries)
    ensures !stop ==> extra == ExtraSleep(w) && |ws| < m && opt.enabled && |ws| < opt.maxRetries
    ensures !opt.enabled ==>
      opt.defaultWaits == old(opt.defaultWaits) && opt.history == old(opt.history) && opt.convergence == old(opt.convergence)
    ensures opt.enabled ==> opt.history == Logged(hist0, name, h0, ws + [w], ok)
    ensures !ok ==> opt.defaultWaits == old(opt.defaultWaits) && opt.convergence == old(opt.convergence)
    ensures ok && opt.enabled ==>
      opt.defaultWaits == old(opt.defaultWaits)[name := Clamp(Learn(old(opt.Current(name)), w, true, |ws|, opt.maxRetries).next)]
    ensures ok && opt.enabled ==>
      opt.convergence == old(opt.convergence)[name := NextConvergence(old(opt.ConvergenceOf(name)), Clamp(Learn(old(opt.Current(name)), w, true, |ws|, opt.maxRetries).next))]
  {
    w := FetchWait(opt, name, jitter);
    var retry, next := Report(opt, name, h0, hist0, ws, w, ok);
    extra := 0.0;
    stop := ok || !retry || |ws| >= m;
    if stop && !ok {
      BudgetReached(m, opt.enabled, opt.maxRetries, |ws|);
    }
    if !stop {
      extra := Max(0.0, next - w);
    }
  }

  /**
   * The loop of `_execute_action` with retry limit `m`: attempt after
   * attempt until one succeeds, the optimiser declines a retry or `m + 1`
   * attempts have been made. `waits` holds each attempt's wait, `extras`
   * the extra sleep before each retry.
   */
  method RunAttempts(opt: WaitOptimizer, name: string, outcomes: seq<bool>, jitters: seq<real>, m: int)
    returns (success: bool, waits: seq<real>, extras: seq<real>)
    requires opt.Valid()
    requires m < |outcomes| && m < |jitters|
    requires forall i :: 0 <= i < |jitters| ==> 0.0 <= jitters[i] < 1.0
    modifies opt
    ensures opt.Valid() && opt.enabled == old(opt.enabled) && opt.maxRetries == old(opt.maxRetries)
    ensures |waits| <= |outcomes| && (success ==> 0 < |waits| && outcomes[|waits| - 1])
    ensures forall j :: 0 <= j < |waits| - 1 ==> !outcomes[j]
    ensures success ==> |waits| <= AttemptBudget(m, old(opt.enabled), old(opt.maxRetries))
    ensures !success ==> |waits| == AttemptBudget(m, old(opt.enabled), old(opt.maxRetries))
    ensures !success ==> forall j :: 0 <= j < |waits| ==> !outcomes[j]
    ensures |extras| == (if |waits| == 0 then 0 else |waits| - 1)
    ensures forall i :: 0 <= i < |waits| ==> InBand(waits[i], old(opt.enabled), old(opt.Current(name)))
    ensures forall i :: 0 <= i < |extras| ==> extras[i] == ExtraSleep(waits[i])
    ensures !old(opt.enabled) || |waits| == 0 ==>
      opt.defaultWaits == old(opt.defaultWaits) && opt.history == old(opt.history) && opt.convergence == old(opt.convergence)
    ensures old(opt.enabled) ==> opt.history == Logged(old(opt.history), name, old(opt.HistoryOf(name)), waits, success)
    ensures old(opt.enabled) && !success ==>
      opt.defaultWaits == old(opt.defaultWaits) && opt.convergence == old(opt.convergence)
    ensures old(opt.enabled) && success ==>
      opt.defaultWaits == old(opt.defaultWaits)[name := Clamp(Learn(old(opt.Current(name)), waits[|waits| - 1], true, |waits| - 1, opt.maxRetries).next)]
    ensures old(opt.enabled) && success ==>
      opt.convergence == old(opt.convergence)[name := NextConvergence(old(opt.ConvergenceOf(name)), Clamp(Learn(old(opt.Current(name)), waits[|waits| - 1], true, |waits| - 1, opt.maxRetries).next))]
  {
    ghost var h0 := opt.HistoryOf(name);
    ghost var en := opt.enabled;
    ghost var cur := opt.Current(name);
    waits := [];
    extras := [];
    success := false;
    var retryCount := 0;
    while retryCount <= m
      invariant 0 <= retryCount == |waits| == |extras| && !success
      invariant retryCount == 0 || (opt.enabled && retryCount <= m && retryCount <= opt.maxRetries)
      invariant forall j :: 0 <= j < retryCount ==> !outcomes[j]
      invariant opt.Valid() && opt.enabled == old(opt.enabled) && opt.maxRetries == old(opt.maxRetries)
      invariant opt.defaultWaits == old(opt.defaultWaits) && opt.convergence == old(opt.convergence)
      invariant opt.history == Logged(old(opt.history), name, h0, waits, false)
      invariant forall i :: 0 <= i < |waits| ==> InBand(waits[i], en, cur)
      invariant forall i :: 0 <= i < |extras| ==> extras[i] == ExtraSleep(waits[i])
    {
      success := outcomes[retryCount];
      var stop, w, extra := Attempt(opt, name, h0, old(opt.history), waits, jitters[retryCount], success, m);
      waits := waits + [w];
      if stop {
        assert waits[|waits| - 1] == w && |waits| - 1 == retryCount;
        break;
      }
      extras := extras + [extra];
      retryCount := retryCount + 1;
    }
  }

  /**
   * `_execute_action`: up to `max_retries + 1` attempts (the optimiser's
   * `max_retries` when the argument is None). It returns `(True, k)` at the
   * first success, attempt k; on failure it always returns
   * `(False, max_retries)`. Every attempt waits the optimiser's estimate,
   * which failures leave unchanged, and reports to the optimiser; between
   * attempts the extra sleep tops the wait up to the expanded one.
   */
  method ExecuteAction(opt: WaitOptimizer, name: string, outcomes: seq<bool>, jitters: seq<real>, maxRetries: Option<int>)
    returns (success: bool, retries: int, waits: seq<real>, extras: seq<real>)
    requires opt.Valid()
    requires maxRetries.GetOr(opt.maxRetries) < |outcomes|
    requires maxRetries.GetOr(opt.maxRetries) < |jitters|
    requires forall i :: 0 <= i < |jitters| ==> 0.0 <= jitters[i] < 1.0
    modifies opt
    ensures opt.Valid() && opt.enabled == old(opt.enabled) && opt.maxRetries == old(opt.maxRetries)
    ensures var m := maxRetries.GetOr(old(opt.maxRetries));
      var b := AttemptBudget(m, old(opt.enabled), old(opt.maxRetries));
      b <= |outcomes|
      && (success <==> FirstHit(outcomes, b).Some?)
      && (success ==> retries == FirstHit(outcomes, b).value && |waits| == retries + 1)
      && (!success ==> retries == m && |waits| == b)
    ensures |extras| == (if |waits| == 0 then 0 else |waits| - 1)
    ensures forall i :: 0 <= i < |waits| ==> InBand(waits[i], old(opt.enabled), old(opt.Current(name)))
    ensures forall i :: 0 <= i < |extras| ==> extras[i] == ExtraSleep(waits[i])
    ensures !old(opt.enabled) || |waits| == 0 ==>
      opt.defaultWaits == old(opt.defaultWaits) && opt.history == old(opt.history) && opt.convergence == old(opt.convergence)
    ensures old(opt.enabled) && |waits| > 0 ==>
      opt.history == old(opt.history)[name := AppendAll(old(opt.HistoryOf(name)), Trail(waits, success))]
    ensures old(opt.enabled) && !success ==>
      opt.defaultWaits == old(opt.defaultWaits) && opt.convergence == old(opt.convergence)
    ensures old(opt.enabled) && success ==>
      opt.defaultWaits == old(opt.defaultWaits)[name := Clamp(Learn(old(opt.Current(name)), waits[retries], true, retries, opt.maxRetries).next)]
    ensures old(opt.enabled) && success ==>
      opt.convergence == old(opt.convergence)[name := NextConvergence(old(opt.ConvergenceOf(name)), Clamp(Learn(old(opt.Current(name)), waits[retries], true, retries, opt.maxRetries).next))]
  {
    var m := if maxRetries.Some? then maxRetries.value else opt.maxRetries;
    ghost var b := AttemptBudget(m, opt.enabled, opt.maxRetries);
    success, waits, extras := RunAttempts(opt, name, outcomes, jitters, m);
    if success {
      retries := |waits| - 1;
      FirstHitAt(outcomes, b, retries);
    } else {
      retries := m;
    }
  }

  /** A location on the screen. */
  datatype Location = Location(x: int, y: int)

  /** What `click_template` is given: a template name, or matches found earlier. */
  datatype TemplateArg = Named(name: string) | Found(matches: seq<Location>)

  /** One `attempt_click`: a fresh screenshot (None when capture failed) with the template's matches, then a tap on the first. */
  function AttemptClick(screen: Option<seq<Location>>, tapOk: bool): bool
  {
    screen.Some? && |screen.value| > 0 && tapOk
  }

  function AttemptOutcomes(screens: seq<Option<seq<Location>>>, taps: seq<bool>): (r: seq<bool>)
    requires |screens| == |taps|
    ensures |r| == |screens|
    ensures forall i :: 0 <= i < |r| ==> r[i] == AttemptClick(screens[i], taps[i])
  {
    seq(|screens|, i requires 0 <= i < |screens| => AttemptClick(screens[i], taps[i]))
  }

  /**
   * The pre-found branch of `click_template`: no tap for an empty list;
   * otherwise a single tap on the first match, recorded as a first-try
   * "template_click" success of 0.05 s when it succeeds.
   */
  method ClickFound(opt: WaitOptimizer, matches: seq<Location>, tapOk: bool)
    returns (success: bool, retries: int, tap: Option<Location>)
    requires opt.Valid()
    modifies opt
    ensures opt.Valid() && opt.enabled == old(opt.enabled) && opt.maxRetries == old(opt.maxRetries)
    ensures retries == 0
    ensures tap == (if |matches| == 0 then None else Some(matches[0]))
    ensures success <==> |matches| > 0 && tapOk
    ensures !success || !opt.enabled ==>
      opt.defaultWaits == old(opt.defaultWaits) && opt.history == old(opt.history) && opt.convergence == old(opt.convergence)
    ensures success && opt.enabled ==>
      opt.history == old(opt.history)["template_click" := AppendBounded(old(opt.HistoryOf("template_click")), Record(0.05, true, 0))]
      && opt.defaultWaits == old(opt.defaultWaits)["template_click" := Clamp(old(opt.Current("template_click")) * SuccessDelta)]
      && opt.convergence == old(opt.convergence)["template_click" :=
        NextConvergence(old(opt.ConvergenceOf("template_click")), Clamp(old(opt.Current("template_click")) * SuccessDelta))]
  {
    if |matches| == 0 {
      return false, 0, None;
    }
    tap := Some(matches[0]);
    if tapOk {
      var _, _ := opt.RecordWaitResult("template_click", 0.05, true, 0);
      return true, 0, tap;
    }
    return false, 0, tap;
  }

  /** The retry branch of `click_template`: `attempt_click` through the retry engine as "template_click". */
  method ClickNamed(opt: WaitOptimizer, screens: seq<Option<seq<Location>>>, taps: seq<bool>, jitters: seq<real>, maxRetries: Option<int>)
    returns (success: bool, retries: int, waits: seq<real>)
    requires opt.Valid()
    requires |screens| == |taps|
    requires maxRetries.GetOr(opt.maxRetries) < |screens|
    requires maxRetries.GetOr(opt.maxRetries) < |jitters|
    requires forall i :: 0 <= i < |jitters| ==> 0.0 <= jitters[i] < 1.0
    modifies opt
    ensures opt.Valid() && opt.enabled == old(opt.enabled) && opt.maxRetries == old(opt.maxRetries)
    ensures var m := maxRetries.GetOr(old(opt.maxRetries));
      var hit := FirstHit(AttemptOutcomes(screens, taps), AttemptBudget(m, old(opt.enabled), old(opt.maxRetries)));
      (success <==> hit.Some?) && (success ==> retries == hit.value && |waits| == retries + 1)
      && (!success ==> retries == m && |waits| == AttemptBudget(m, old(opt.enabled), old(opt.maxRetries)))
    ensures forall i :: 0 <= i < |waits| ==> InBand(waits[i], old(opt.enabled), old(opt.Current("template_click")))
    ensures !old(opt.enabled) || |waits| == 0 ==>
      opt.defaultWaits == old(opt.defaultWaits) && opt.history == old(opt.history) && opt.convergence == old(opt.convergence)
    ensures old(opt.enabled) && |waits| > 0 ==>
      opt.history == old(opt.history)["template_click" := AppendAll(old(opt.HistoryOf("template_click")), Trail(waits, success))]
    ensures old(opt.enabled) && !success ==>
      opt.defaultWaits == old(opt.defaultWaits) && opt.convergence == old(opt.convergence)
    ensures old(opt.enabled) && success ==>
      opt.defaultWaits == old(opt.defaultWaits)["template_click" :=
        Clamp(Learn(old(opt.Current("template_click")), waits[retries], true, retries, opt.maxRetries).next)]
    ensures old(opt.enabled) && success ==>
      opt.convergence == old(opt.convergence)["template_click" :=
        NextConvergence(old(opt.ConvergenceOf("template_click")), Clamp(Learn(old(opt.Current("template_click")), waits[retries], true, retries, opt.maxRetries).next))]
  {
    var outcomes := AttemptOutcomes(screens, taps);
    var extras;
    success, retries, waits, extras := ExecuteAction(opt, "template_click", outcomes, jitters, maxRetries);
  }

  /**
   * `click_template`: dispatch on what it is given. Matches found earlier
   * go through `ClickFound` (no retry engine, `waits` empty); a template
   * name goes through the retry engine.
   */
  method ClickTemplate(opt: WaitOptimizer, template: TemplateArg, tapOk: bool,
                       screens: seq<Option<seq<Location>>>, taps: seq<bool>, jitters: seq<real>, maxRetries: Option<int>)
    returns (success: bool, retries: int, waits: seq<real>)
    requires opt.Valid()
    requires template.Named? ==>
      |screens| == |taps| && maxRetries.GetOr(opt.maxRetries) < |screens| && maxRetries.GetOr(opt.maxRetries) < |jitters|
      && forall i :: 0 <= i < |jitters| ==> 0.0 <= jitters[i] < 1.0
    modifies opt
    ensures opt.Valid() && opt.enabled == old(opt.enabled) && opt.maxRetries == old(opt.maxRetries)
    ensures template.Found? ==> retries == 0 && waits == [] && (success <==> |template.matches| > 0 && tapOk)
    ensures template.Found? && (!success || !opt.enabled) ==>
      opt.defaultWaits == old(opt.defaultWaits) && opt.history == old(opt.history) && opt.convergence == old(opt.convergence)
    ensures template.Found? && success && opt.enabled ==>
      opt.history == old(opt.history)["template_click" := AppendBounded(old(opt.HistoryOf("template_click")), Record(0.05, true, 0))]
      && opt.defaultWaits == old(opt.defaultWaits)["template_click" := Clamp(old(opt.Current("template_click")) * SuccessDelta)]
      && opt.convergence == old(opt.convergence)["template_click" :=
        NextConvergence(old(opt.ConvergenceOf("template_click")), Clamp(old(opt.Current("template_click")) * SuccessDelta))]
    ensures template.Named? ==>
      var m := maxRetries.GetOr(old(opt.maxRetries));
      var hit := FirstHit(AttemptOutcomes(screens, taps), AttemptBudget(m, old(opt.enabled), old(opt.maxRetries)));
      (success <==> hit.Some?) && (success ==> retries == hit.value && |waits| == retries + 1)
      && (!success ==> retries == m && |waits| == AttemptBudget(m, old(opt.enabled), old(opt.maxRetries)))
    ensures template.Named? && (!old(opt.enabled) || |waits| == 0) ==>
      opt.defaultWaits == old(opt.defaultWaits) && opt.history == old(opt.history) && opt.convergence == old(opt.convergence)
    ensures template.Named? && old(opt.enabled) && |waits| > 0 ==>
      opt.history == old(opt.history)["template_click" := AppendAll(old(opt.HistoryOf("template_click")), Trail(waits, success))]
    ensures template.Named? && old(opt.enabled) && !success ==>
      opt.defaultWaits == old(opt.defaultWaits) && opt.convergence == old(opt.convergence)
    ensures template.Named? && old(opt.enabled) && success ==>
      opt.defaultWaits == old(opt.defaultWaits)["template_click" :=
        Clamp(Learn(old(opt.Current("template_click")), waits[retries], true, retries, opt.maxRetries).next)]
    ensures template.Named? && old(opt.enabled) && success ==>
      opt.convergence == old(opt.convergence)["template_click" :=
        NextConvergence(old(opt.ConvergenceOf("template_click")), Clamp(Learn(old(opt.Current("template_click")), waits[retries], true, retries, opt.maxRetries).next))]
  {
    match template {
      case Found(matches) =>
        var s, r, _ := ClickFound(opt, matches, tapOk);
        success, retries, waits := s, r, [];
      case Named(_) =>
        success, retries, waits := ClickNamed(opt, screens, taps, jitters, maxRetries);
    }
  }

  /** `(a + b) // 2`: the midpoint rounded down. */
  function Mid(a: int, b: int): (c: int)
    ensures 2 * c <= a + b < 2 * c + 2
    ensures (if a <= b then a else b) <= c <= (if a <= b then b else a)
  {
    (a + b) / 2
  }

  /**
   * `click_region`: a region that is not four numbers is refused with
   * `(False, 0)` and no tap; otherwise the centre is tapped through the
   * retry engine as "region_click".
   */
  method ClickRegion(opt: WaitOptimizer, region: seq<int>, taps: seq<bool>, jitters: seq<real>, maxRetries: Option<int>)
    returns (success: bool, retries: int, center: Option<Location>, waits: seq<real>)
    requires opt.Valid()
    requires |region| == 4 ==>
      maxRetries.GetOr(opt.maxRetries) < |taps| && maxRetries.GetOr(opt.maxRetries) < |jitters|
      && forall i :: 0 <= i < |jitters| ==> 0.0 <= jitters[i] < 1.0
    modifies opt
    ensures opt.Valid() && opt.enabled == old(opt.enabled) && opt.maxRetries == old(opt.maxRetries)
    ensures |region| != 4 ==> !success && retries == 0 && center.None? && waits == [] && unchanged(opt)
    ensures |region| == 4 ==>
      center == Some(Location(Mid(region[0], region[2]), Mid(region[1], region[3])))
      && var m := maxRetries.GetOr(old(opt.maxRetries));
      var hit := FirstHit(taps, AttemptBudget(m, old(opt.enabled), old(opt.maxRetries)));
      (success <==> hit.Some?) && (success ==> retries == hit.value && |waits| == retries + 1)
      && (!success ==> retries == m && |waits| == AttemptBudget(m, old(opt.enabled), old(opt.maxRetries)))
    ensures forall i :: 0 <= i < |waits| ==> InBand(waits[i], old(opt.enabled), old(opt.Current("region_click")))
    ensures |region| == 4 && (!old(opt.enabled) || |waits| == 0) ==>
      opt.defaultWaits == old(opt.defaultWaits) && opt.history == old(opt.history) && opt.convergence == old(opt.convergence)
    ensures old(opt.enabled) && |waits| > 0 ==>
      opt.history == old(opt.history)["region_click" := AppendAll(old(opt.HistoryOf("region_click")), Trail(waits, success))]
    ensures old(opt.enabled) && !success ==>
      opt.defaultWaits == old(opt.defaultWaits) && opt.convergence == old(opt.convergence)
    ensures old(opt.enabled) && success ==>
      opt.defaultWaits == old(opt.defaultWaits)["region_click" :=
        Clamp(Learn(old(opt.Current("region_click")), waits[retries], true, retries, opt.maxRetries).next)]
    ensures old(opt.enabled) && success ==>
      opt.convergence == old(opt.convergence)["region_click" :=
        NextConvergence(old(opt.ConvergenceOf("region_click")), Clamp(Learn(old(opt.Current("region_click")), waits[retries], true, retries, opt.maxRetries).next))]
  {
    if |region| != 4 {
      return false, 0, None, [];
    }
    center := Some(Location(Mid(region[0], region[2]), Mid(region[1], region[3])));
    var extras;
    success, retries, waits, extras := ExecuteAction(opt, "region_click", taps, jitters, maxRetries);
  }
}
