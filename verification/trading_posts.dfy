/**
 * Trading posts and their curse/uncurse schedule.
 *
 * Every trading post shares one priority queue of tasks "at time t, curse
 * (or uncurse) post p"; the protocol repeatedly looks at the earliest task
 * and either sleeps until it is due or pops and runs it. Cursing swaps the
 * post's workers for the three productivity workers and re-reads the order
 * timer, which schedules the uncurse; uncursing restores the saved workers
 * and schedules the next curse.
 *
 * The queue is a binary min-heap kept in a sequence, maintained the way
 * Python's `heapq` does it. Its key is the task's time with a sequence
 * number as tie-break (see `Less`); the tuples the bot pushes have no
 * tie-break (see `TupleLess`). What the device shows and does is passed in:
 * the clock, OCR readings, and the outcome of each screen check and click.
 */
module TradingPosts {
  import opened Wrappers
  import opened BoundedSearch
  import Ocr
  import Navigation

  /** A queued task: at `time`, curse (`isCurse`) or uncurse `post`; `seqNo` orders equal times. */
  datatype Task = Task(time: real, post: Station, isCurse: bool, seqNo: nat)

  // ---------------------------------------------------------------------
  // Task order
  // ---------------------------------------------------------------------

  /** The queue order: earlier time first, and among equal times the task pushed first. */
  predicate Less(a: Task, b: Task)
  {
    a.time < b.time || (a.time == b.time && a.seqNo < b.seqNo)
  }

  predicate KeyLe(a: Task, b: Task)
  {
    !Less(b, a)
  }

  /** `Less` is a strict total order on tasks with distinct sequence numbers, refining the order by time. */
  lemma LessIsTotal(a: Task, b: Task, c: Task)
    requires a.seqNo != b.seqNo
    ensures Less(a, b) != Less(b, a)
    ensures !Less(a, a)
    ensures Less(a, b) && Less(b, c) ==> Less(a, c)
    ensures a.time < b.time ==> Less(a, b)
    ensures KeyLe(a, b) ==> a.time <= b.time
  {
  }

  /**
   * Python's `<` on the pushed tuples `(time, post, is_curse)`: times
   * first; on equal times the posts are compared, which raises TypeError
   * (None here) unless both are the same post, whose `False < True` then
   * puts an uncurse first.
   */
  function TupleLess(a: Task, b: Task): (r: Option<bool>)
    ensures r.None? <==> a.time == b.time && a.post != b.post
    ensures r.Some? && a.time != b.time ==> r.value == Less(a, b)
  {
    if a.time != b.time then Some(a.time < b.time)
    else if a.post != b.post then None
    else Some(!a.isCurse && b.isCurse)
  }

  // ---------------------------------------------------------------------
  // Heap shape
  // ---------------------------------------------------------------------

  function Parent(i: nat): nat
    requires i > 0
  {
    (i - 1) / 2
  }

  lemma ParentIs(j: nat, p: nat)
    requires j > 0
    ensures Parent(j) == p <==> j == 2 * p + 1 || j == 2 * p + 2
  {
  }

  function Swap(h: seq<Task>, i: nat, j: nat): (r: seq<Task>)
    requires i < |h| && j < |h|
    ensures |r| == |h| && r[i] == h[j] && r[j] == h[i]
    ensures forall k :: 0 <= k < |h| && k != i && k != j ==> r[k] == h[k]
    ensures multiset(r) == multiset(h)
  {
    h[i := h[j]][j := h[i]]
  }

  /** The heap invariant: no task precedes its parent. */
  ghost predicate IsHeap(s: seq<Task>)
  {
    forall i :: 0 < i < |s| ==> KeyLe(s[Parent(i)], s[i])
  }

  /** The root of a heap precedes every entry. */
  lemma {:induction false} RootLe(s: seq<Task>, i: nat)
    requires IsHeap(s) && i < |s|
    ensures KeyLe(s[0], s[i])
    decreases i
  {
    if i > 0 {
      RootLe(s, Parent(i));
    }
  }

  lemma HeadIsMin(s: seq<Task>)
    requires IsHeap(s) && |s| > 0
    ensures forall u :: u in s ==> KeyLe(s[0], u)
  {
    forall u | u in s
      ensures KeyLe(s[0], u)
    {
      var i :| 0 <= i < |s| && s[i] == u;
      RootLe(s, i);
    }
  }

  /**
   * `heapq._siftdown`: move the entry at `pos` toward the root while it
   * precedes its parent. Everything else already satisfies the invariant.
   */
  method SiftTowardRoot(s: seq<Task>, pos: nat) returns (h: seq<Task>)
    requires pos < |s|
    requires forall i :: 0 < i < |s| && i != pos ==> KeyLe(s[Parent(i)], s[i])
    requires pos > 0 ==> forall i :: 0 < i < |s| && Parent(i) == pos ==> KeyLe(s[Parent(pos)], s[i])
    ensures IsHeap(h)
    ensures multiset(h) == multiset(s)
  {
    h := s;
    var k := pos;
    while k > 0 && Less(h[k], h[Parent(k)])
      invariant k < |h| == |s|
      invariant multiset(h) == multiset(s)
      invariant forall i :: 0 < i < |h| && i != k ==> KeyLe(h[Parent(i)], h[i])
      invariant k > 0 ==> forall i :: 0 < i < |h| && Parent(i) == k ==> KeyLe(h[Parent(k)], h[i])
    {
      var p := Parent(k);
      h := Swap(h, k, p);
      k := p;
    }
  }

  /** The invariant holds except between `pos` and its parent and children. */
  ghost predicate HeapExcept(h: seq<Task>, pos: nat)
  {
    forall i :: 0 < i < |h| && i != pos && Parent(i) != pos ==> KeyLe(h[Parent(i)], h[i])
  }

  /** The children of `pos` do not precede its parent. */
  ghost predicate GrandparentOk(h: seq<Task>, pos: nat)
    requires pos < |h|
  {
    pos > 0 ==> forall i :: 0 < i < |h| && Parent(i) == pos ==> KeyLe(h[Parent(pos)], h[i])
  }

  lemma ToLeafStep(h: seq<Task>, pos: nat, child: nat)
    requires pos < child < |h| && Parent(child) == pos
    requires HeapExcept(h, pos) && GrandparentOk(h, pos)
    requires pos > 0 ==> KeyLe(h[Parent(pos)], h[child])
    requires forall j :: 0 < j < |h| && Parent(j) == pos ==> KeyLe(h[child], h[j])
    ensures HeapExcept(Swap(h, pos, child), child)
    ensures GrandparentOk(Swap(h, pos, child), child)
  {
    var h' := Swap(h, pos, child);
    forall i | 0 < i < |h'| && i != child && Parent(i) != child
      ensures KeyLe(h'[Parent(i)], h'[i])
    {
      if i == pos {
      } else if Parent(i) == pos {
      } else {
      }
    }
  }

  /**
   * `heapq._siftup` from the root: move the smaller child up until a leaf
   * is reached, then sift the displaced entry back toward the root.
   */
  method SiftToLeaf(s: seq<Task>) returns (h: seq<Task>)
    requires |s| > 0
    requires HeapExcept(s, 0)
    ensures IsHeap(h)
    ensures multiset(h) == multiset(s)
  {
    h := s;
    var pos := 0;
    var child := 1;
    while child < |h|
      invariant pos < |h| == |s|
      invariant child == 2 * pos + 1
      invariant multiset(h) == multiset(s)
      invariant HeapExcept(h, pos) && GrandparentOk(h, pos)
    {
      var right := child + 1;
      if right < |h| && !Less(h[child], h[right]) {
        child := right;
      }
      forall j | 0 < j < |h| && Parent(j) == pos
        ensures KeyLe(h[child], h[j])
      {
        ParentIs(j, pos);
      }
      ToLeafStep(h, pos, child);
      h := Swap(h, pos, child);
      pos := child;
      child := 2 * pos + 1;
    }
    forall i | 0 < i < |h|
      ensures Parent(i) != pos
    {
      ParentIs(i, pos);
    }
    h := SiftTowardRoot(h, pos);
  }

  /**
   * `heapq.heappush` on the tuples as the bot pushes them: the sift toward
   * the root compares with `TupleLess`, and fails (None) as soon as a
   * comparison raises.
   */
  function SiftAsWritten(h: seq<Task>, k: nat): (r: Option<seq<Task>>)
    requires k < |h|
    ensures r.Some? ==> multiset(r.value) == multiset(h)
    decreases k
  {
    if k == 0 then Some(h)
    else
      match TupleLess(h[k], h[Parent(k)])
      case None => None
      case Some(before) => if before then SiftAsWritten(Swap(h, k, Parent(k)), Parent(k)) else Some(h)
  }

  function PushAsWritten(h: seq<Task>, x: Task): Option<seq<Task>>
  {
    SiftAsWritten(h + [x], |h|)
  }

  /**
   * As written, `heappush` raises TypeError when the new task is due at the
   * same time as the entry it is first compared with, the parent of the new
   * slot, and that entry is for another post. With one queued task, that is
   * the queued task.
   */
  lemma TieMakesPushRaise(h: seq<Task>, x: Task)
    requires |h| > 0
    requires h[Parent(|h|)].time == x.time && h[Parent(|h|)].post != x.post
    ensures PushAsWritten(h, x).None?
  {
    assert (h + [x])[|h|] == x && (h + [x])[Parent(|h|)] == h[Parent(|h|)];
  }

  // ---------------------------------------------------------------------
  // The shared queue
  // ---------------------------------------------------------------------

  /**
   * The class-level queue `_curse_uncurse_queue` with the protocol's two
   * configured constants: the execution buffer (2 s when testing, else the
   * configured value, default 45 s) and the conflict threshold (default 240 s).
   */
  class Scheduler {
    var heap: seq<Task>
    var nextSeq: nat
    const buffer: real
    const threshold: real

    ghost predicate Valid()
      reads this
    {
      IsHeap(heap) && forall t :: t in heap ==> t.seqNo < nextSeq && t.post.sched == this
    }

    /** The stations with a queued task. */
    ghost function Posts(): set<Station>
      reads this
    {
      set t | t in heap :: t.post
    }

    constructor(testing: bool, configuredBuffer: Option<real>, configuredThreshold: Option<real>)
      ensures Valid() && heap == [] && nextSeq == 0
      ensures buffer == (if testing then 2.0 else configuredBuffer.GetOr(45.0))
      ensures threshold == configuredThreshold.GetOr(240.0)
    {
      heap := [];
      nextSeq := 0;
      buffer := if testing then 2.0 else configuredBuffer.GetOr(45.0);
      threshold := configuredThreshold.GetOr(240.0);
    }

    /** `heapq.heappush(queue, (time, post, is_curse))`, the task numbered by push order. */
    method Push(time: real, post: Station, isCurse: bool)
      requires Valid() && post.sched == this
      modifies this
      ensures Valid()
      ensures nextSeq == old(nextSeq) + 1 && |heap| == old(|heap|) + 1
      ensures multiset(heap) == multiset(old(heap)) + multiset{Task(time, post, isCurse, old(nextSeq))}
    {
      var added := heap + [Task(time, post, isCurse, nextSeq)];
      var h := SiftTowardRoot(added, |added| - 1);
      forall t | t in h
        ensures t in added
      {
        assert t in multiset(added);
      }
      heap := h;
      nextSeq := nextSeq + 1;
    }

    /** `heapq.heappop(queue)`: remove and return the earliest task. */
    method Pop() returns (t: Task)
      requires Valid() && |heap| > 0
      modifies this
      ensures Valid() && nextSeq == old(nextSeq)
      ensures t == old(heap[0]) && |heap| == old(|heap|) - 1
      ensures multiset(heap) == multiset(old(heap)) - multiset{t}
      ensures forall u :: u in old(heap) ==> KeyLe(t, u)
    {
      HeadIsMin(heap);
      var last := heap[|heap| - 1];
      var rest := heap[..|heap| - 1];
      assert heap == rest + [last];
      if |rest| == 0 {
        t := last;
        heap := rest;
        assert forall u :: u in rest ==> u in old(heap);
      } else {
        t := rest[0];
        var h := rest[0 := last];
        assert HeapExcept(h, 0);
        var sifted := SiftToLeaf(h);
        assert multiset(sifted) == multiset(rest) - multiset{t} + multiset{last};
        forall u | u in sifted
          ensures u in old(heap)
        {
          assert u in multiset(h);
        }
        heap := sifted;
      }
    }

    /**
     * The due branch's first half: pop the head and, for a curse, decide on
     * drones from the time of the task now at the head.
     */
    method TakeDue() returns (task: Task, nextTime: Option<real>, useDrones: bool)
      requires Valid() && |heap| > 0
      modifies this
      ensures Valid() && nextSeq == old(nextSeq)
      ensures task == old(heap[0]) && task.post in old(Posts()) && task.post.sched == this
      ensures multiset(heap) == multiset(old(heap)) - multiset{task}
      ensures nextTime.Some? <==> old(|heap|) > 1
      ensures nextTime.Some? ==> forall u :: u in multiset(old(heap)) - multiset{task} ==> nextTime.value <= u.time
      ensures nextTime.Some? ==> exists u :: u in multiset(old(heap)) - multiset{task} && u.time == nextTime.value
      ensures useDrones <==> UseDrones(task, nextTime, threshold)
    {
      assert heap[0] in heap;
      task := Pop();
      nextTime := None;
      useDrones := false;
      if |heap| > 0 {
        HeadIsMin(heap);
        assert heap[0] in multiset(heap);
        forall u | u in multiset(old(heap)) - multiset{task}
          ensures heap[0].time <= u.time
        {
          assert u in heap;
        }
        nextTime := Some(heap[0].time);
        if task.isCurse {
          var gap := heap[0].time - task.time;
          useDrones := 0.0 < gap <= threshold;
        }
      }
    }

    /**
     * The due branch's second half: curse the post, or wait (at clock
     * `later`) until the uncurse time and uncurse it.
     */
    method Visit(task: Task, useDrones: bool, later: real, s: Shift, after: Shift)
      returns (wait: real, result: (bool, int))
      requires Valid() && task.post.sched == this && Ready(s) && Ready(after)
      modifies this, task.post
      ensures Valid()
      ensures wait == (if task.isCurse then 0.0 else Clamp(task.time - later))
      ensures result == Returns(task.isCurse, useDrones, s, after)
      ensures task.post.State() == AfterVisit(old(task.post.State()), task, useDrones, s, after)
      ensures multiset(heap) == multiset(old(heap)) + Requeued(task, useDrones, s, after, old(nextSeq))
    {
      wait := 0.0;
      var ok, retries;
      if task.isCurse {
        ok, retries := task.post.Curse(useDrones, s, after);
      } else {
        wait := Clamp(task.time - later);
        ok, retries := task.post.Uncurse(s);
      }
      result := (ok, retries);
    }

    /**
     * The due branch of a protocol pass: pop the head, decide on drones,
     * return to the base's left side, and curse or uncurse the post. When
     * returning to the base raises, the loop's handler logs it and sleeps:
     * the popped task is gone.
     */
    method Dispatch(later: real, wiring: Navigation.Wiring, approach: Approach, s: Shift, after: Shift)
      returns (step: Step)
      requires Valid() && Ready(s) && Ready(after) && |heap| > 0
      requires |approach.first| >= 15 && |approach.second| >= 15
      modifies this, Posts()
      ensures Valid()
      ensures (step.Dispatched? || step.Aborted?) && step.task == old(heap[0])
      ensures step.Aborted? <==> ApproachRaises(approach, wiring)
      ensures step.Aborted? ==> multiset(heap) == multiset(old(heap)) - multiset{step.task}
      ensures step.Dispatched? ==>
        (step.nextTime.Some? <==> old(|heap|) > 1)
        && (step.nextTime.Some? ==> forall u :: u in multiset(old(heap)) - multiset{step.task} ==> step.nextTime.value <= u.time)
        && (step.nextTime.Some? ==> exists u :: u in multiset(old(heap)) - multiset{step.task} && u.time == step.nextTime.value)
        && (step.useDrones <==> UseDrones(step.task, step.nextTime, threshold))
        && step.uncurseWait == (if step.task.isCurse then 0.0 else Clamp(step.task.time - later))
        && step.result == Returns(step.task.isCurse, step.useDrones, s, after)
        && step.task.post.State() == AfterVisit(old(step.task.post.State()), step.task, step.useDrones, s, after)
        && multiset(heap) == multiset(old(heap)) - multiset{step.task} + Requeued(step.task, step.useDrones, s, after, old(nextSeq))
      ensures forall p :: p in old(Posts()) && !(step.Dispatched? && p == step.task.post) ==> p.State() == old(p.State())
    {
      var task, nextTime, useDrones := TakeDue();
      var reached, _ := Navigation.ReachBaseLeftSide(approach.first, approach.zoomedOut, approach.second, wiring);
      if reached.Raised? {
        return Aborted(task);
      }
      var wait, result := Visit(task, useDrones, later, s, after);
      step := Dispatched(task, nextTime, useDrones, wait, result);
    }

    /**
     * One pass of `initiate_cursing_protocol`'s loop at clock `now`: with an
     * empty queue, sleep 60 s; with the head not yet within the buffer,
     * sleep until it is; otherwise dispatch the head.
     */
    method ProtocolPass(now: real, later: real, wiring: Navigation.Wiring, approach: Approach, s: Shift, after: Shift)
      returns (step: Step)
      requires Valid() && Ready(s) && Ready(after)
      requires |approach.first| >= 15 && |approach.second| >= 15
      modifies this, Posts()
      ensures Valid()
      ensures old(|heap|) == 0 ==> step == Idle(60.0) && heap == old(heap)
      ensures old(|heap|) > 0 && old(heap[0]).time - now > buffer ==>
        step == Waiting(old(heap[0]).time - now - buffer) && heap == old(heap)
      ensures step.Waiting? ==> step.sleep > 0.0
      ensures old(|heap|) > 0 && old(heap[0]).time - now <= buffer ==>
        (step.Dispatched? || step.Aborted?) && step.task == old(heap[0])
        && (step.Aborted? <==> ApproachRaises(approach, wiring))
      ensures step.Aborted? ==> multiset(heap) == multiset(old(heap)) - multiset{step.task}
      ensures step.Dispatched? ==>
        (step.nextTime.Some? <==> old(|heap|) > 1)
        && (step.nextTime.Some? ==> forall u :: u in multiset(old(heap)) - multiset{step.task} ==> step.nextTime.value <= u.time)
        && (step.nextTime.Some? ==> exists u :: u in multiset(old(heap)) - multiset{step.task} && u.time == step.nextTime.value)
        && (step.useDrones <==> UseDrones(step.task, step.nextTime, threshold))
        && step.uncurseWait == (if step.task.isCurse then 0.0 else Clamp(step.task.time - later))
        && step.result == Returns(step.task.isCurse, step.useDrones, s, after)
        && step.task.post.State() == AfterVisit(old(step.task.post.State()), step.task, step.useDrones, s, after)
        && multiset(heap) == multiset(old(heap)) - multiset{step.task} + Requeued(step.task, step.useDrones, s, after, old(nextSeq))
      ensures forall p :: p in old(Posts()) && !(step.Dispatched? && p == step.task.post) ==> p.State() == old(p.State())
    {
      if |heap| == 0 {
        step := Idle(60.0);
      } else if heap[0].time - now > buffer {
        step := Waiting(heap[0].time - now - buffer);
      } else {
        step := Dispatch(later, wiring, approach, s, after);
      }
    }
  }

  /** The protocol's approach to the base: the views of `reach_base_left_side`'s two base searches and whether it saw the zoomed-out base. */
  datatype Approach = Approach(first: seq<Navigation.View>, zoomedOut: bool, second: seq<Navigation.View>)

  /** With `click_template` as written, `reach_base_left_side` raises unless its first view is the base and it is not zoomed out. */
  predicate ApproachRaises(approach: Approach, wiring: Navigation.Wiring)
    requires |approach.first| >= 1
  {
    wiring.AsWritten? && (!approach.first[0].atBase || approach.zoomedOut)
  }

  /** What one protocol pass did. */
  datatype Step =
    | Idle(sleep: real)
    | Waiting(sleep: real)
    | Aborted(task: Task)
    | Dispatched(task: Task, nextTime: Option<real>, useDrones: bool, uncurseWait: real, result: (bool, int))

  /** A curse uses drones when the next queued task follows it within the conflict threshold. */
  predicate UseDrones(task: Task, nextTime: Option<real>, threshold: real)
  {
    task.isCurse && nextTime.Some? && 0.0 < nextTime.value - task.time <= threshold
  }

  /** `max(0, d)`. */
  function Clamp(d: real): (r: real)
    ensures r >= 0.0 && r >= d && (r == 0.0 || r == d)
  {
    if d > 0.0 then d else 0.0
  }

  // ---------------------------------------------------------------------
  // What a visit to a post sees
  // ---------------------------------------------------------------------

  /** One round of `_ensure_inside_tp`: already inside, or else whether entering the post worked. */
  datatype Round = Round(inside: bool, entered: bool)

  /** `_ensure_inside_tp` yields True when one of its three rounds finds the post's interior. */
  predicate Entered(rounds: seq<Round>)
    requires |rounds| >= 3
  {
    exists i :: 0 <= i < 3 && (rounds[i].inside || rounds[i].entered)
  }

  /** One timer read: what OCR returned for the timer region, and the clock at that moment. */
  datatype TimerRead = TimerRead(ocr: Option<seq<string>>, now: real)

  /** What `_update_execution_time` sees: its entry rounds and its (up to three) timer reads. */
  datatype TimerScan = TimerScan(rounds: seq<Round>, timers: seq<TimerRead>)

  predicate Complete(scan: TimerScan)
  {
    |scan.rounds| >= 3 && |scan.timers| >= 3
  }

  /** Which of the three reads parse as a timer. */
  function Parsed(timers: seq<TimerRead>): (r: seq<bool>)
    requires |timers| >= 3
    ensures |r| == 3 && forall i :: 0 <= i < 3 ==> r[i] == Ocr.ParseTimer(timers[i].ocr).Some?
  {
    seq(3, i requires 0 <= i < 3 => Ocr.ParseTimer(timers[i].ocr).Some?)
  }

  /**
   * The execution time a scan yields: the clock plus the first timer that
   * parses, provided the post could be entered.
   */
  function Reading(scan: TimerScan): Option<real>
    requires Complete(scan)
  {
    if !Entered(scan.rounds) then None
    else
      match FirstHit(Parsed(scan.timers), 3)
      case None => None
      case Some(k) => Some(scan.timers[k].now + Ocr.ParseTimer(scan.timers[k].ocr).value as real)
  }

  /** A reading exists exactly when the post was entered and one of the three reads parsed; it is the first such read. */
  lemma ReadingMeaning(scan: TimerScan)
    requires Complete(scan)
    ensures Reading(scan).Some? <==> Entered(scan.rounds) && exists k :: 0 <= k < 3 && Ocr.ParseTimer(scan.timers[k].ocr).Some?
    ensures Reading(scan).Some? ==>
      exists k :: (0 <= k < 3
        && (forall j :: 0 <= j < k ==> Ocr.ParseTimer(scan.timers[j].ocr).None?)
        && Ocr.ParseTimer(scan.timers[k].ocr).Some?
        && Reading(scan).value == scan.timers[k].now + Ocr.ParseTimer(scan.timers[k].ocr).value as real)
  {
    var parsed := Parsed(scan.timers);
    if Entered(scan.rounds) {
      var hit := FirstHit(parsed, 3);
      if hit.Some? {
        var k := hit.value;
        assert forall j :: 0 <= j < k ==> !parsed[j];
      } else {
        assert forall j :: 0 <= j < 3 ==> !parsed[j];
      }
    }
  }

  /** Whether worker selection sees things: the outcome of each category-icon click and, per worker, each of its search rounds. */
  datatype Picks = Picks(iconOk: seq<bool>, sightings: seq<seq<bool>>)

  /** Observations beyond those given count as failures. */
  function Window(s: seq<bool>, n: nat): (w: seq<bool>)
    ensures |w| == n && forall i :: 0 <= i < n ==> w[i] == (i < |s| && s[i])
  {
    seq(n, i requires 0 <= i < n => i < |s| && s[i])
  }

  function IconOk(picks: Picks, i: nat): bool
  {
    i < |picks.iconOk| && picks.iconOk[i]
  }

  /** The 15 search rounds for the i-th worker. */
  function Sightings(picks: Picks, i: nat): (w: seq<bool>)
    ensures |w| == 15
  {
    Window(if i < |picks.sightings| then picks.sightings[i] else [], 15)
  }

  /**
   * What a curse or uncurse visit sees: the entry rounds, whether a fresh
   * screenshot was available and the three roster slots OCR read from it
   * ("" when nothing was read), worker selection, the confirm click (its
   * success and retry count) and the timer re-read.
   */
  datatype Shift = Shift(rounds: seq<Round>, screenshot: bool, slotTexts: seq<string>, picks: Picks,
                         confirmed: bool, confirmRetries: int, rescan: TimerScan)

  predicate Ready(s: Shift)
  {
    |s.rounds| >= 3 && Complete(s.rescan)
  }

  /** The new worker arrangement was confirmed. */
  predicate Confirmed(s: Shift)
    requires Ready(s)
  {
    Entered(s.rounds) && s.confirmed
  }

  /** The execution time a confirmed visit re-reads, if any. */
  function Rescheduled(s: Shift): Option<real>
    requires Ready(s)
  {
    if Confirmed(s) then Reading(s.rescan) else None
  }

  /** What `uncurse` (and a curse without drones) returns. */
  function VisitResult(s: Shift): (bool, int)
    requires Ready(s)
  {
    if !Entered(s.rounds) then (false, 0)
    else if !s.confirmed then (false, s.confirmRetries)
    else (Reading(s.rescan).Some?, 0)
  }

  /** The text read from roster slot `i`, "" when there is none. */
  function SlotText(texts: seq<string>, i: nat): string
  {
    if i < |texts| then texts[i] else ""
  }

  /** The roster `_save_productivity_workers` records: three names, "Unknown" for a slot that read nothing. */
  function Roster(texts: seq<string>): (r: seq<string>)
    ensures |r| == 3
    ensures forall i :: 0 <= i < 3 ==> r[i] == (if SlotText(texts, i) == "" then "Unknown" else SlotText(texts, i))
  {
    seq(3, i requires 0 <= i < 3 => if SlotText(texts, i) == "" then "Unknown" else SlotText(texts, i))
  }

  /** The roster after the visit saved it: replaced only when a screenshot was available. */
  function Saved(workers: seq<string>, s: Shift): seq<string>
  {
    if s.screenshot then Roster(s.slotTexts) else workers
  }

  /**
   * The task `_schedule_curse` (40 s before) or `_schedule_uncurse` (10 s
   * after) pushes for a newly read execution time: none without a reading
   * or for a time that is not positive.
   */
  function FollowUp(post: Station, when: Option<real>, isCurse: bool, seqNo: nat): multiset<Task>
  {
    if when.None? || when.value <= 0.0 then multiset{}
    else multiset{Task(if isCurse then when.value - 40.0 else when.value + 10.0, post, isCurse, seqNo)}
  }

  // ---------------------------------------------------------------------
  // Workers
  // ---------------------------------------------------------------------

  /** A worker table: each known worker's class and name template. */
  type WorkerTable = map<string, (string, string)>

  /** `WorkerConfig.WORKERS`, the table the station uses. */
  const Workers: WorkerTable := map[
    "Proviso" := ("supporter", "char-name-proviso"),
    "Quartz" := ("guard", "char-name-quartz"),
    "Tequila" := ("guard", "char-name-tequila"),
    "Pozemka" := ("sniper", "char-name-pozemka"),
    "Tuye" := ("medic", "char-name-tuye"),
    "Jaye" := ("specialist", "char-name-jaye"),
    "MrNothing" := ("specialist", "char-name-mrnothing"),
    "Shamare" := ("supporter", "char-name-shamare"),
    "Firewhistle" := ("defender", "char-name-firewhistle"),
    "Kirara" := ("specialist", "char-name-kirara"),
    "Gummy" := ("defender", "char-name-gummy"),
    "Midnight" := ("guard", "char-name-midnight"),
    "Texas" := ("vanguard", "char-name-texas"),
    "Lappland" := ("guard", "char-name-lappland"),
    "Exusiai" := ("sniper", "char-name-exusiai"),
    "Lemuen" := ("sniper", "char-name-lemuen"),
    "Underflow" := ("defender", "char-name-underflow")]

  /** `WorkerConfig.CURSE_WORKERS`: the three workers a curse puts in. */
  const CurseWorkers: seq<string> := ["Proviso", "Quartz", "Tequila"]

  /** The filter icon of a class (the class names are already lower case). */
  function CategoryIcon(category: string): string
  {
    "operator-categories-" + category + "-icon"
  }

  const AllCategoriesIcon: string := "operator-categories-all-icon"

  /** How a worker is looked for: by name template for a known worker, else by OCR of the name. */
  datatype Search = ByTemplate(template: string) | ByText(name: string)

  function SearchFor(table: WorkerTable, name: string): Search
  {
    if name in table then ByTemplate(table[name].1) else ByText(name)
  }

  /** The class filter in force after selecting `name` with `prev` in force: set by a successful icon click, cleared by an unknown worker. */
  function FilterAfter(table: WorkerTable, name: string, prev: Option<string>, iconOk: bool): Option<string>
  {
    if name in table then
      var icon := CategoryIcon(table[name].0);
      if Some(icon) != prev && iconOk then Some(icon) else prev
    else None
  }

  /** The icon clicked for `name` with `prev` in force: its class's when that filter is not already in force, "all" for an unknown worker. */
  function ClickFor(table: WorkerTable, name: string, prev: Option<string>): Option<string>
  {
    if name in table then
      var icon := CategoryIcon(table[name].0);
      if Some(icon) != prev then Some(icon) else None
    else Some(AllCategoriesIcon)
  }

  /** The class filter in force before the k-th worker is selected. */
  function CategoryBefore(table: WorkerTable, names: seq<string>, picks: Picks, k: nat): Option<string>
    requires k <= |names|
  {
    if k == 0 then None
    else FilterAfter(table, names[k - 1], CategoryBefore(table, names, picks, k - 1), IconOk(picks, k - 1))
  }

  /** The icon clicked for the k-th worker. */
  function IconClick(table: WorkerTable, names: seq<string>, picks: Picks, k: nat): Option<string>
    requires k < |names|
  {
    ClickFor(table, names[k], CategoryBefore(table, names, picks, k))
  }

  /** A known worker of the same class as the one before, whose filter click succeeded, needs no click. */
  lemma SameCategoryNoClick(table: WorkerTable, names: seq<string>, picks: Picks, k: nat)
    requires k + 1 < |names| && names[k] in table && names[k + 1] in table
    requires table[names[k]].0 == table[names[k + 1]].0
    requires IconOk(picks, k)
    ensures IconClick(table, names, picks, k + 1).None?
  {
  }

  /** A curse clicks the supporter filter, then the guard filter, and none for Tequila (a guard like Quartz). */
  lemma CurseWorkersIcons(picks: Picks)
    requires IconOk(picks, 0) && IconOk(picks, 1)
    ensures IconClick(Workers, CurseWorkers, picks, 0) == Some(CategoryIcon("supporter"))
    ensures IconClick(Workers, CurseWorkers, picks, 1) == Some(CategoryIcon("guard"))
    ensures IconClick(Workers, CurseWorkers, picks, 2).None?
  {
    assert CurseWorkers[0] in Workers && Workers[CurseWorkers[0]].0 == "supporter";
    assert CurseWorkers[1] in Workers && Workers[CurseWorkers[1]].0 == "guard";
    assert CurseWorkers[2] in Workers && Workers[CurseWorkers[2]].0 == "guard";
    SameCategoryNoClick(Workers, CurseWorkers, picks, 1);
  }

  /**
   * `_find_and_select_worker`: up to 15 rounds of "look for the worker
   * (by template click or by OCR and a tap), else swipe left".
   */
  method FindAndSelectWorker(sightings: seq<bool>) returns (found: bool, swipes: nat)
    requires |sightings| >= 15
    ensures var hit := FirstHit(sightings, 15);
      (found <==> hit.Some?) && swipes == (if found then hit.value else 15)
  {
    swipes := 0;
    while swipes < 15
      invariant swipes <= 15
      invariant forall j :: 0 <= j < swipes ==> !sightings[j]
    {
      if sightings[swipes] {
        FirstHitAt(sightings, 15, swipes);
        return true, swipes;
      }
      swipes := swipes + 1;
    }
    found := false;
  }

  /**
   * One worker of `_select_workers` with filter `current` in force: click
   * the class icon unless its filter is already in force (remembering it
   * when the click works), or "all" for an unknown worker; then choose how
   * to search.
   */
  method SelectWorker(table: WorkerTable, name: string, current: Option<string>, iconOk: bool)
    returns (click: Option<string>, search: Search, next: Option<string>)
    ensures click == ClickFor(table, name, current) && search == SearchFor(table, name)
    ensures next == FilterAfter(table, name, current, iconOk)
  {
    next := current;
    if name in table {
      var icon := CategoryIcon(table[name].0);
      if Some(icon) != current {
        click := Some(icon);
        if iconOk {
          next := Some(icon);
        }
      } else {
        click := None;
      }
      search := ByTemplate(table[name].1);
    } else {
      click := Some(AllCategoriesIcon);
      next := None;
      search := ByText(name);
    }
  }

  /** The k-th worker is found: some round among the 15 sees it. */
  predicate Finds(picks: Picks, k: nat)
  {
    FirstHit(Sightings(picks, k), 15).Some?
  }

  /** One pass of `_select_workers`' loop: the k-th worker's filter click and search. */
  method SelectAt(table: WorkerTable, names: seq<string>, picks: Picks, k: nat, current: Option<string>)
    returns (click: Option<string>, search: Search, found: bool, next: Option<string>)
    requires k < |names| && current == CategoryBefore(table, names, picks, k)
    ensures click == IconClick(table, names, picks, k) && search == SearchFor(table, names[k])
    ensures found <==> Finds(picks, k)
    ensures next == CategoryBefore(table, names, picks, k + 1)
  {
    click, search, next := SelectWorker(table, names[k], current, IconOk(picks, k));
    var swipes;
    found, swipes := FindAndSelectWorker(Sightings(picks, k));
  }

  /**
   * `_select_workers`: for each name, switch the class filter when needed
   * (or to "all" for a worker not in `table`) and search for the worker.
   * It always returns 0 retries. The stations pass `Workers`.
   */
  method SelectWorkers(table: WorkerTable, names: seq<string>, picks: Picks)
    returns (total: int, clicks: seq<Option<string>>, searches: seq<Search>, found: seq<bool>)
    ensures total == 0
    ensures |clicks| == |names| && |searches| == |names| && |found| == |names|
    ensures forall i :: 0 <= i < |names| ==> clicks[i] == IconClick(table, names, picks, i)
    ensures forall i :: 0 <= i < |names| ==> searches[i] == SearchFor(table, names[i])
    ensures forall i :: 0 <= i < |names| ==> (found[i] <==> Finds(picks, i))
  {
    total := 0;
    clicks, searches, found := [], [], [];
    var current: Option<string> := None;
    var i := 0;
    while i < |names|
      invariant i <= |names| && |clicks| == i && |searches| == i && |found| == i
      invariant current == CategoryBefore(table, names, picks, i)
      invariant forall j :: 0 <= j < i ==> clicks[j] == IconClick(table, names, picks, j)
      invariant forall j :: 0 <= j < i ==> searches[j] == SearchFor(table, names[j])
      invariant forall j :: 0 <= j < i ==> (found[j] <==> Finds(picks, j))
    {
      var click, search, f;
      click, search, f, current := SelectAt(table, names, picks, i, current);
      clicks := clicks + [click];
      searches := searches + [search];
      found := found + [f];
      i := i + 1;
    }
  }

  // ---------------------------------------------------------------------
  // Stations
  // ---------------------------------------------------------------------

  /**
   * A `TradingPost`: its tap position and id, whether it is cursed, the
   * productivity workers saved by the last curse, and the execution time
   * of its current order (0 until a timer is read).
   */
  class Station {
    const sched: Scheduler
    const x: int
    const y: int
    const id: int
    var isCursed: bool
    var productivityWorkers: seq<string>
    var executionTime: real

    /** `__init__` followed by `_initialize`: read the timer and schedule the first curse. */
    constructor(sched: Scheduler, x: int, y: int, id: int, scan: TimerScan)
      requires sched.Valid() && Complete(scan)
      modifies sched
      ensures this.sched == sched && this.x == x && this.y == y && this.id == id
      ensures !isCursed && productivityWorkers == []
      ensures executionTime == Reading(scan).GetOr(0.0)
      ensures sched.Valid() && |sched.heap| <= old(|sched.heap|) + 1
      ensures multiset(sched.heap) == multiset(old(sched.heap)) + FollowUp(this, Reading(scan), true, old(sched.nextSeq))
    {
      this.sched := sched;
      this.x := x;
      this.y := y;
      this.id := id;
      isCursed := false;
      productivityWorkers := [];
      executionTime := 0.0;
      new;
      Initialize(scan);
    }

    /** `_initialize`: when the timer can be read, schedule the curse. */
    method Initialize(scan: TimerScan)
      requires sched.Valid() && Complete(scan)
      modifies this`executionTime, sched
      ensures executionTime == Reading(scan).GetOr(old(executionTime))
      ensures sched.Valid() && |sched.heap| <= old(|sched.heap|) + 1
      ensures multiset(sched.heap) == multiset(old(sched.heap)) + FollowUp(this, Reading(scan), true, old(sched.nextSeq))
    {
      var _ := Reschedule(scan, true);
    }

    /**
     * `_update_execution_time` followed, when it succeeds, by
     * `_schedule_curse` or `_schedule_uncurse`: the step `_initialize`,
     * `curse` and `uncurse` share.
     */
    method Reschedule(scan: TimerScan, isCurse: bool) returns (ok: bool)
      requires sched.Valid() && Complete(scan)
      modifies this`executionTime, sched
      ensures ok == Reading(scan).Some?
      ensures executionTime == Reading(scan).GetOr(old(executionTime))
      ensures sched.Valid() && |sched.heap| <= old(|sched.heap|) + 1
      ensures multiset(sched.heap) == multiset(old(sched.heap)) + FollowUp(this, Reading(scan), isCurse, old(sched.nextSeq))
    {
      ghost var n := sched.nextSeq;
      ok := UpdateExecutionTime(scan);
      if ok {
        assert Reading(scan) == Some(executionTime);
        if isCurse {
          ScheduleCurse();
        } else {
          ScheduleUncurse();
        }
      } else {
        assert FollowUp(this, Reading(scan), isCurse, n) == multiset{};
      }
    }

    /** `_ensure_inside_tp`: three rounds of "inside already? else try to enter". */
    method EnsureInsideTp(rounds: seq<Round>) returns (inside: bool)
      requires |rounds| >= 3
      ensures inside == Entered(rounds)
    {
      var i := 0;
      while i < 3
        invariant i <= 3
        invariant forall j :: 0 <= j < i ==> !rounds[j].inside && !rounds[j].entered
      {
        if rounds[i].inside || rounds[i].entered {
          return true;
        }
        i := i + 1;
      }
      return false;
    }

    /**
     * `_update_execution_time`: inside the post, up to three timer reads;
     * the first that parses sets the execution time to the clock plus the
     * timer.
     */
    method UpdateExecutionTime(scan: TimerScan) returns (ok: bool)
      requires Complete(scan)
      modifies this`executionTime
      ensures ok == Reading(scan).Some?
      ensures executionTime == Reading(scan).GetOr(old(executionTime))
    {
      var inside := EnsureInsideTp(scan.rounds);
      if !inside {
        return false;
      }
      ghost var parsed := Parsed(scan.timers);
      var i := 0;
      while i < 3
        invariant i <= 3 && executionTime == old(executionTime)
        invariant forall j :: 0 <= j < i ==> !parsed[j]
      {
        var timer := Ocr.ParseTimer(scan.timers[i].ocr);
        if timer.Some? {
          executionTime := scan.timers[i].now + timer.value as real;
          FirstHitAt(parsed, 3, i);
          return true;
        }
        i := i + 1;
      }
      return false;
    }

    /** `_schedule_curse`: queue a curse `prelay` seconds before the execution time, if there is one. */
    method ScheduleCurse(prelay: real := 40.0)
      requires sched.Valid()
      modifies sched
      ensures sched.Valid() && |sched.heap| <= old(|sched.heap|) + 1
      ensures multiset(sched.heap) == multiset(old(sched.heap))
        + (if executionTime <= 0.0 then multiset{} else multiset{Task(executionTime - prelay, this, true, old(sched.nextSeq))})
      ensures prelay == 40.0 ==>
        multiset(sched.heap) == multiset(old(sched.heap)) + FollowUp(this, Some(executionTime), true, old(sched.nextSeq))
    {
      if executionTime <= 0.0 {
        return;
      }
      sched.Push(executionTime - prelay, this, true);
    }

    /** `_schedule_uncurse`: queue an uncurse `delay` seconds after the execution time, if there is one. */
    method ScheduleUncurse(delay: real := 10.0)
      requires sched.Valid()
      modifies sched
      ensures sched.Valid() && |sched.heap| <= old(|sched.heap|) + 1
      ensures multiset(sched.heap) == multiset(old(sched.heap))
        + (if executionTime <= 0.0 then multiset{} else multiset{Task(executionTime + delay, this, false, old(sched.nextSeq))})
      ensures delay == 10.0 ==>
        multiset(sched.heap) == multiset(old(sched.heap)) + FollowUp(this, Some(executionTime), false, old(sched.nextSeq))
    {
      if executionTime <= 0.0 {
        return;
      }
      sched.Push(executionTime + delay, this, false);
    }

    /**
     * `_save_productivity_workers`: without a fresh screenshot nothing is
     * saved; otherwise the roster becomes the three slots read.
     */
    method SaveProductivityWorkers(screenshot: bool, slotTexts: seq<string>) returns (ok: bool, r: int)
      modifies this`productivityWorkers
      ensures ok == screenshot && r == 0
      ensures productivityWorkers == (if screenshot then Roster(slotTexts) else old(productivityWorkers))
    {
      if !screenshot {
        return false, 0;
      }
      productivityWorkers := [];
      var i := 0;
      while i < 3
        invariant i <= 3 && productivityWorkers == Roster(slotTexts)[..i]
      {
        var text := SlotText(slotTexts, i);
        productivityWorkers := productivityWorkers + [if text == "" then "Unknown" else text];
        i := i + 1;
      }
      return true, 0;
    }

    /** The post's own state. */
    function State(): PostState
      reads this
    {
      PostState(isCursed, productivityWorkers, executionTime)
    }

    /**
     * `uncurse`: inside the post, select the saved workers and forget them;
     * after a confirmed change the post is no longer cursed, and a new
     * timer reading schedules the next curse.
     */
    method Uncurse(s: Shift) returns (ok: bool, r: int)
      requires sched.Valid() && Ready(s)
      modifies this, sched
      ensures (ok, r) == VisitResult(s)
      ensures State() == AfterUncurse(old(State()), s)
      ensures sched.Valid() && |sched.heap| <= old(|sched.heap|) + 1
      ensures multiset(sched.heap) == multiset(old(sched.heap)) + FollowUp(this, Rescheduled(s), true, old(sched.nextSeq))
    {
      var inside := EnsureInsideTp(s.rounds);
      if !inside {
        return false, 0;
      }
      var _, _, _, _ := SelectWorkers(Workers, productivityWorkers, s.picks);
      productivityWorkers := [];
      if !s.confirmed {
        return false, s.confirmRetries;
      }
      isCursed := false;
      ok := Reschedule(s.rescan, true);
      r := 0;
    }

    /**
     * `curse`: inside the post, save the current roster and select the
     * curse workers; after a confirmed change the post is cursed. With
     * drones it finishes with an uncurse (visit `after`) and returns its
     * result; otherwise a new timer reading schedules the uncurse.
     */
    method Curse(useDrones: bool, s: Shift, after: Shift) returns (ok: bool, r: int)
      requires sched.Valid() && Ready(s) && Ready(after)
      modifies this, sched
      ensures (ok, r) == Returns(true, useDrones, s, after)
      ensures State() == AfterCurse(old(State()), useDrones, s, after)
      ensures sched.Valid() && |sched.heap| <= old(|sched.heap|) + 1
      ensures multiset(sched.heap) == multiset(old(sched.heap)) + CurseRequeued(this, useDrones, s, after, old(sched.nextSeq))
    {
      var inside := EnsureInsideTp(s.rounds);
      if !inside {
        return false, 0;
      }
      var _, _ := SaveProductivityWorkers(s.screenshot, s.slotTexts);
      var _, _, _, _ := SelectWorkers(Workers, CurseWorkers, s.picks);
      if !s.confirmed {
        return false, s.confirmRetries;
      }
      ok, r := CurseConfirmed(useDrones, s, after);
    }

    /** The rest of `curse` once the change is confirmed. */
    method CurseConfirmed(useDrones: bool, s: Shift, after: Shift) returns (ok: bool, r: int)
      requires sched.Valid() && Ready(s) && Ready(after) && Confirmed(s)
      modifies this, sched
      ensures (ok, r) == Returns(true, useDrones, s, after)
      ensures State() == Cursed(old(State()), useDrones, s, after)
      ensures sched.Valid() && |sched.heap| <= old(|sched.heap|) + 1
      ensures multiset(sched.heap) == multiset(old(sched.heap)) + CurseRequeued(this, useDrones, s, after, old(sched.nextSeq))
    {
      isCursed := true;
      if useDrones {
        ok, r := Uncurse(after);
        return;
      }
      ok := Reschedule(s.rescan, false);
      r := 0;
    }
  }

  /** A post's state: cursed or not, the saved productivity workers, the execution time. */
  datatype PostState = PostState(isCursed: bool, workers: seq<string>, executionTime: real)

  /** The state after an uncurse visit. */
  function AfterUncurse(p: PostState, s: Shift): PostState
    requires Ready(s)
  {
    if !Entered(s.rounds) then p
    else PostState(if s.confirmed then false else p.isCursed, [], Rescheduled(s).GetOr(p.executionTime))
  }

  /** The state after a curse visit; with drones, the state after the uncurse that follows. */
  function AfterCurse(p: PostState, useDrones: bool, s: Shift, after: Shift): PostState
    requires Ready(s) && Ready(after)
  {
    if !Entered(s.rounds) then p
    else
      var saved := p.(workers := Saved(p.workers, s));
      if !s.confirmed then saved else Cursed(saved, useDrones, s, after)
  }

  /** The state a confirmed curse leaves: cursed, with the re-read time; with drones, then uncursed by `after`. */
  function Cursed(p: PostState, useDrones: bool, s: Shift, after: Shift): PostState
    requires Ready(s) && Ready(after)
  {
    if useDrones then AfterUncurse(p.(isCursed := true), after)
    else p.(isCursed := true, executionTime := Reading(s.rescan).GetOr(p.executionTime))
  }

  /** The state after a dispatched visit. */
  function AfterVisit(p: PostState, task: Task, useDrones: bool, s: Shift, after: Shift): PostState
    requires Ready(s) && Ready(after)
  {
    if task.isCurse then AfterCurse(p, useDrones, s, after) else AfterUncurse(p, s)
  }

  /** What a visit returns (the protocol ignores it): a drone curse returns its uncurse's result. */
  function Returns(isCurse: bool, useDrones: bool, s: Shift, after: Shift): (bool, int)
    requires Ready(s) && Ready(after)
  {
    if isCurse && Confirmed(s) && useDrones then VisitResult(after) else VisitResult(s)
  }

  /**
   * The task a curse visit queues for its post: none unless confirmed; its
   * uncurse; or, when it finished with drones (an immediate uncurse), the
   * next curse.
   */
  function CurseRequeued(post: Station, useDrones: bool, s: Shift, after: Shift, seqNo: nat): multiset<Task>
    requires Ready(s) && Ready(after)
  {
    if !Confirmed(s) then multiset{}
    else if useDrones then FollowUp(post, Rescheduled(after), true, seqNo)
    else FollowUp(post, Rescheduled(s), false, seqNo)
  }

  /** The tasks a dispatched visit queues for its post: after an uncurse, the next curse. */
  function Requeued(task: Task, useDrones: bool, s: Shift, after: Shift, seqNo: nat): multiset<Task>
    requires Ready(s) && Ready(after)
  {
    if task.isCurse then CurseRequeued(task.post, useDrones, s, after, seqNo)
    else FollowUp(task.post, Rescheduled(s), true, seqNo)
  }

  // ---------------------------------------------------------------------
  // What the visits promise
  // ---------------------------------------------------------------------

  /**
   * A curse marks the post cursed only once the change is confirmed; an
   * unconfirmed visit keeps the flag and the execution time, and saves the
   * roster only when it got inside and had a screenshot.
   */
  lemma CurseStateFacts(p: PostState, useDrones: bool, s: Shift, after: Shift)
    requires Ready(s) && Ready(after)
    ensures var q := AfterCurse(p, useDrones, s, after);
      (!Confirmed(s) ==> q.isCursed == p.isCursed && q.executionTime == p.executionTime)
      && (!Confirmed(s) ==> q.workers == (if Entered(s.rounds) then Saved(p.workers, s) else p.workers))
      && (Confirmed(s) && !useDrones ==> q.isCursed && q.workers == Saved(p.workers, s))
      && (Confirmed(s) && useDrones ==> q.isCursed == !Confirmed(after))
  {
  }

  /**
   * An uncurse forgets the saved roster as soon as it is inside, before
   * confirming, and clears the flag only once the change is confirmed.
   */
  lemma UncurseStateFacts(p: PostState, s: Shift)
    requires Ready(s)
    ensures var q := AfterUncurse(p, s);
      (Entered(s.rounds) ==> q.workers == [])
      && (!Entered(s.rounds) ==> q == p)
      && (q.isCursed <==> p.isCursed && !Confirmed(s))
      && (!Confirmed(s) ==> q.executionTime == p.executionTime)
  {
  }

  /**
   * A visit queues at most one task, for its own post, and only after a
   * confirmed change whose timer re-read gave a positive time; it is a
   * curse after an uncurse or a drone curse, an uncurse after any other
   * curse.
   */
  lemma RequeuedFacts(task: Task, useDrones: bool, s: Shift, after: Shift, seqNo: nat)
    requires Ready(s) && Ready(after)
    ensures |Requeued(task, useDrones, s, after, seqNo)| <= 1
    ensures forall t :: t in Requeued(task, useDrones, s, after, seqNo) ==>
      t.post == task.post && t.seqNo == seqNo && t.isCurse == (!task.isCurse || useDrones)
    ensures Requeued(task, useDrones, s, after, seqNo) != multiset{} ==>
      Confirmed(s) && (if task.isCurse && useDrones then Rescheduled(after) else Reading(s.rescan)).Some?
  {
  }

  /**
   * A confirmed curse without drones whose timer re-read fails returns
   * (false, 0) and queues nothing: once its task has been popped the post
   * is never visited again, although it stays cursed.
   */
  lemma FailedReReadDropsPost(p: PostState, task: Task, s: Shift, after: Shift, seqNo: nat)
    requires Ready(s) && Ready(after)
    requires task.isCurse && Confirmed(s) && Reading(s.rescan).None?
    ensures Requeued(task, false, s, after, seqNo) == multiset{}
    ensures Returns(true, false, s, after) == (false, 0)
    ensures AfterCurse(p, false, s, after).isCursed
  {
  }

  /** Drones are never used for an uncurse, for an empty queue, or when the next task is not strictly later. */
  lemma NoDronesWithoutLaterHead(task: Task, nextTime: Option<real>, threshold: real)
    ensures !task.isCurse ==> !UseDrones(task, nextTime, threshold)
    ensures nextTime.None? ==> !UseDrones(task, nextTime, threshold)
    ensures nextTime.Some? && nextTime.value <= task.time ==> !UseDrones(task, nextTime, threshold)
  {
  }
}
