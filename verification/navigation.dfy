/**
 * Screen navigation: the generic retry and location helpers, and the
 * bounded back-press searches for the home screen and the base. What each
 * screen check sees is an input sequence, one entry per check; taps, swipes
 * and sleeps are counted instead of performed.
 *
 * Every back press goes through `click_template` of this module, which
 * forwards to the click helper. As written it forwards the keyword
 * `max_attempts`, which the click helper does not accept, so every such call
 * raises TypeError. `Wiring` selects that behaviour (`AsWritten`) or the
 * evidently intended one (`Corrected`: the attempts become `max_retries`).
 */
module Navigation {
  import opened Wrappers
  import opened BoundedSearch

  /** What a call does: returns a value, or raises. */
  datatype Outcome<T> = Returned(value: T) | Raised

  datatype Wiring = AsWritten | Corrected

  /** The keyword this module's `click_template` passes on. */
  const ForwardedKeyword: string := "max_attempts"

  /** The parameters the click helper's `click_template` accepts. */
  const HelperParameters: set<string> := {"template_name", "threshold", "max_retries", "wait_after", "description"}

  /**
   * `click_template(template, use_cached_screenshot=...)`: one attempt with
   * a cached screenshot, else three. As written the keyword is not bound
   * and the call raises before anything is clicked; corrected, it returns
   * the retry count handed to the click helper (the click's own result is
   * ignored by every caller here).
   */
  function ForwardClick(wiring: Wiring, useCached: bool): (r: Outcome<nat>)
    ensures wiring.AsWritten? <==> r.Raised?
    ensures r.Returned? ==> r.value + 1 == (if useCached then 1 else 3)
  {
    var retries: nat := if useCached then 0 else 2;
    match wiring
    case AsWritten => if ForwardedKeyword in HelperParameters then Returned(retries) else Raised
    case Corrected => Returned(retries)
  }

  /** A count argument as `range` sees it: a negative count is an empty range. */
  function Attempts(n: int): nat
  {
    if n < 0 then 0 else n
  }

  /**
   * `retry_operation`: call `func` up to `max_attempts` times, stopping at
   * the first success, sleeping `delay` after every failed attempt but the
   * last. `outcomes[i]` is what the (i+1)-th call returns.
   */
  method RetryOperation(outcomes: seq<bool>, maxAttempts: int := 3, delay: real := 1.0)
    returns (ok: bool, calls: nat, sleeps: seq<real>)
    requires maxAttempts <= |outcomes|
    ensures var hit := FirstHit(outcomes, Attempts(maxAttempts));
      (ok <==> hit.Some?) && (ok ==> calls == hit.value + 1) && (!ok ==> calls == Attempts(maxAttempts))
    ensures |sleeps| == (if calls == 0 then 0 else calls - 1)
    ensures forall i :: 0 <= i < |sleeps| ==> sleeps[i] == delay
  {
    calls := 0;
    sleeps := [];
    var attempt := 1;
    while attempt <= maxAttempts
      invariant 1 <= attempt && calls == attempt - 1 <= Attempts(maxAttempts)
      invariant forall j :: 0 <= j < calls ==> !outcomes[j]
      invariant |sleeps| + (if attempt > maxAttempts && calls > 0 then 1 else 0) == calls
      invariant forall i :: 0 <= i < |sleeps| ==> sleeps[i] == delay
    {
      calls := calls + 1;
      if outcomes[attempt - 1] {
        FirstHitAt(outcomes, Attempts(maxAttempts), attempt - 1);
        return true, calls, sleeps;
      }
      if attempt < maxAttempts {
        sleeps := sleeps + [delay];
      }
      attempt := attempt + 1;
    }
    ok := false;
  }

  /**
   * `ensure_at_location`: when the check already holds, succeed without
   * navigating; otherwise the result is whatever navigating returns.
   */
  method EnsureAtLocation(here: bool, navigateResult: bool) returns (ok: bool, navigated: bool)
    ensures navigated <==> !here
    ensures ok <==> here || navigateResult
  {
    if here {
      return true, false;
    }
    return navigateResult, true;
  }

  /**
   * `reach_home_screen`: up to `max_attempts` rounds of "home? else press
   * back and sleep 1 s". `views[i]` is whether round i sees the home screen.
   */
  method ReachHomeScreen(views: seq<bool>, wiring: Wiring, maxAttempts: int := 15)
    returns (r: Outcome<bool>, backPresses: nat)
    requires maxAttempts <= |views|
    ensures wiring.Corrected? ==>
      var hit := FirstHit(views, Attempts(maxAttempts));
      r == Returned(hit.Some?) && backPresses == (if hit.Some? then hit.value else Attempts(maxAttempts))
    ensures wiring.AsWritten? ==>
      backPresses == 0
      && r == (if maxAttempts <= 0 then Returned(false) else if views[0] then Returned(true) else Raised)
  {
    backPresses := 0;
    var i := 0;
    while i < maxAttempts
      invariant 0 <= i == backPresses <= Attempts(maxAttempts)
      invariant forall j :: 0 <= j < i ==> !views[j]
      invariant wiring.AsWritten? ==> i == 0
    {
      if views[i] {
        FirstHitAt(views, Attempts(maxAttempts), i);
        return Returned(true), backPresses;
      }
      var press := ForwardClick(wiring, false);
      if press.Raised? {
        return Raised, backPresses;
      }
      backPresses := backPresses + 1;
      i := i + 1;
    }
    r := Returned(false);
  }

  /** What one round of `reach_base` sees: the base view, the home screen, or neither. */
  datatype View = View(atBase: bool, atHome: bool)

  /** The rounds whose view ends the search. */
  function Goals(views: seq<View>): (g: seq<bool>)
    ensures |g| == |views|
    ensures forall i :: 0 <= i < |views| ==> g[i] == (views[i].atBase || views[i].atHome)
  {
    seq(|views|, i requires 0 <= i < |views| => views[i].atBase || views[i].atHome)
  }

  /**
   * `reach_base`: up to `max_back_attempts` rounds; at the base it is done,
   * at the home screen it clicks the base icon (then sleeps 5 s) and is
   * done, otherwise it presses back and sleeps 1 s.
   */
  method ReachBase(views: seq<View>, wiring: Wiring, maxBackAttempts: int := 15)
    returns (r: Outcome<bool>, backPresses: nat, baseIcon: bool)
    requires maxBackAttempts <= |views|
    ensures wiring.Corrected? ==>
      var hit := FirstHit(Goals(views), Attempts(maxBackAttempts));
      r == Returned(hit.Some?)
      && backPresses == (if hit.Some? then hit.value else Attempts(maxBackAttempts))
      && (baseIcon <==> hit.Some? && !views[hit.value].atBase)
    ensures wiring.AsWritten? ==>
      backPresses == 0 && !baseIcon
      && r == (if maxBackAttempts <= 0 then Returned(false) else if views[0].atBase then Returned(true) else Raised)
  {
    backPresses := 0;
    baseIcon := false;
    var goals := Goals(views);
    var i := 0;
    while i < maxBackAttempts
      invariant 0 <= i == backPresses <= Attempts(maxBackAttempts) && !baseIcon
      invariant forall j :: 0 <= j < i ==> !goals[j]
      invariant wiring.AsWritten? ==> i == 0
    {
      if views[i].atBase {
        FirstHitAt(goals, Attempts(maxBackAttempts), i);
        return Returned(true), backPresses, false;
      }
      if views[i].atHome {
        FirstHitAt(goals, Attempts(maxBackAttempts), i);
        var click := ForwardClick(wiring, false);
        if click.Raised? {
          return Raised, backPresses, false;
        }
        return Returned(true), backPresses, true;
      }
      var press := ForwardClick(wiring, false);
      if press.Raised? {
        return Raised, backPresses, false;
      }
      backPresses := backPresses + 1;
      i := i + 1;
    }
    r := Returned(false);
  }

  /** Whether `reach_base()` (15 rounds) succeeds on these views once `click_template` is corrected. */
  predicate BaseReached(views: seq<View>)
    requires |views| >= 15
  {
    FirstHit(Goals(views), 15).Some?
  }

  /**
   * `reach_base_left_side`: reach the base; when the screen shows the
   * zoomed-out base, click the match and reach the base again; then swipe
   * right twice. `zoomedOut` is whether a screenshot was available and
   * showed the zoomed-out trading post.
   */
  method ReachBaseLeftSide(first: seq<View>, zoomedOut: bool, second: seq<View>, wiring: Wiring)
    returns (r: Outcome<bool>, swipes: nat)
    requires |first| >= 15 && |second| >= 15
    ensures swipes == (if r == Returned(true) then 2 else 0)
    ensures wiring.Corrected? ==>
      r == Returned(BaseReached(first) && (!zoomedOut || BaseReached(second)))
    ensures wiring.AsWritten? ==>
      r == (if !first[0].atBase then Raised else if zoomedOut then Raised else Returned(true))
  {
    var r1, _, _ := ReachBase(first, wiring);
    if r1 != Returned(true) {
      return r1, 0;
    }
    if zoomedOut {
      var click := ForwardClick(wiring, true);
      if click.Raised? {
        return Raised, 0;
      }
      var r2, _, _ := ReachBase(second, wiring);
      if r2 != Returned(true) {
        return r2, 0;
      }
    }
    return Returned(true), 2;
  }
}
