/**
 * The result collection of `_send_concurrent_notifications`, without the thread pool: the
 * submit loop, the loop over tasks in the order they complete, and the pass over tasks still
 * pending at the deadline. Task `i` is the `i`-th active notifier.
 */
module Aggregation {
  import opened Wrappers
  import opened Seqs
  import opened NotifierBase

  /** What `future.result()` gave for a completed task: a result, or an exception with `str(e)`. */
  datatype TaskOutcome = Done(result: NotificationResult) | Threw(reason: string)

  /** `NotificationSummary`. */
  datatype Summary = Summary(total: nat, successful: seq<string>, failed: seq<string>, errors: seq<string>)

  /** The three lists the collection appends to. */
  datatype Lists = Lists(successful: seq<string>, failed: seq<string>, errors: seq<string>)

  const NoNotifiersError: string := "没有可用的通知器"
  const TimeoutText: string := "发送超时"

  /**
   * The inputs of one collection: the channel names, what `executor.submit` raised for each
   * task (`None` when it was submitted), and each task's outcome once it completes.
   */
  predicate WellFormed(names: seq<string>, submitError: seq<Option<string>>, outcome: seq<TaskOutcome>) {
    |submitError| == |names| && |outcome| == |names|
  }

  /** Task `i` was handed to the pool. */
  predicate Submitted(submitError: seq<Option<string>>, i: nat) {
    i < |submitError| && submitError[i].None?
  }

  /** `as_completed` yields each submitted task at most once. */
  predicate ValidOrder(submitError: seq<Option<string>>, order: seq<nat>) {
    Distinct(order) && forall j :: 0 <= j < |order| ==> Submitted(submitError, order[j])
  }

  /** Every result names its own notifier's channel, as the notifiers' result helpers and the single-send wrapper do. */
  predicate NamedOutcomes(names: seq<string>, outcome: seq<TaskOutcome>) {
    |outcome| == |names| && forall i :: 0 <= i < |names| && outcome[i].Done? ==> outcome[i].result.channel == names[i]
  }

  // ----- the submit loop -----

  function SubmitStep(acc: Lists, names: seq<string>, submitError: seq<Option<string>>, i: nat): Lists
    requires i < |names| && |submitError| == |names|
  {
    match submitError[i]
    case None => acc
    case Some(msg) =>
      Lists(acc.successful, acc.failed + [names[i]], acc.errors + [names[i] + ": 提交发送任务失败: " + msg])
  }

  /** The lists after submitting tasks `0 .. k-1`. */
  function SubmitPhase(names: seq<string>, submitError: seq<Option<string>>, k: nat): Lists
    requires k <= |names| && |submitError| == |names|
  {
    if k == 0 then Lists([], [], []) else SubmitStep(SubmitPhase(names, submitError, k - 1), names, submitError, k - 1)
  }

  /** The submitted tasks below `k`, in submission order (the insertion order of `future_to_notifier`). */
  function SubmittedIdx(submitError: seq<Option<string>>, k: nat): (idx: seq<nat>)
    requires k <= |submitError|
    ensures forall j :: 0 <= j < |idx| ==> idx[j] < k && Submitted(submitError, idx[j])
  {
    if k == 0 then [] else SubmittedIdx(submitError, k - 1) + (if submitError[k - 1].None? then [k - 1] else [])
  }

  /** The tasks below `k` whose submission raised. */
  function FailedIdx(submitError: seq<Option<string>>, k: nat): (idx: seq<nat>)
    requires k <= |submitError|
  {
    if k == 0 then [] else FailedIdx(submitError, k - 1) + (if submitError[k - 1].None? then [] else [k - 1])
  }

  // ----- the loop over completed tasks -----

  /** `result.error or "未知错误"`. */
  function ErrorText(error: Option<string>): (t: string)
    ensures t != ""
    ensures error.Some? && error.value != "" ==> t == error.value
    ensures !(error.Some? && error.value != "") ==> t == "未知错误"
  {
    if error.Some? && error.value != "" then error.value else "未知错误"
  }

  function CompleteStep(acc: Lists, names: seq<string>, outcome: seq<TaskOutcome>, i: nat): Lists
    requires i < |names| && |outcome| == |names|
  {
    match outcome[i]
    case Done(r) =>
      if r.success then Lists(acc.successful + [r.channel], acc.failed, acc.errors)
      else Lists(acc.successful, acc.failed + [r.channel], acc.errors + [r.channel + ": " + ErrorText(r.error)])
    case Threw(reason) =>
      Lists(acc.successful, acc.failed + [names[i]], acc.errors + [names[i] + ": 获取发送结果异常: " + reason])
  }

  /** The lists after the tasks in `order` complete, in that order. */
  function CompletePhase(acc: Lists, names: seq<string>, outcome: seq<TaskOutcome>, order: seq<nat>): Lists
    requires |outcome| == |names| && forall j :: 0 <= j < |order| ==> order[j] < |names|
    decreases |order|
  {
    if order == [] then acc
    else CompleteStep(CompletePhase(acc, names, outcome, order[..|order| - 1]), names, outcome, order[|order| - 1])
  }

  /**
   * The collection reads a result by the helper that built it: one from the success helper
   * lists its channel as successful, one from the error helper lists it as failed with the
   * line `channel: error or 未知错误`.
   */
  lemma HelperResultsCollected(acc: Lists, names: seq<string>, outcome: seq<TaskOutcome>, i: nat,
    channel: string, message: string, error: Option<string>)
    requires i < |names| && |outcome| == |names|
    ensures outcome[i] == Done(CreateSuccessResult(channel, message)) ==>
      CompleteStep(acc, names, outcome, i) == Lists(acc.successful + [channel], acc.failed, acc.errors)
    ensures outcome[i] == Done(CreateErrorResult(channel, error, message)) ==>
      CompleteStep(acc, names, outcome, i) ==
        Lists(acc.successful, acc.failed + [channel], acc.errors + [channel + ": " + ErrorText(error)])
  {
  }

  // ----- the pass over pending tasks -----

  /** The elements of `s` that are not in `order`, in the order of `s`. */
  function NotIn(s: seq<nat>, order: seq<nat>): (r: seq<nat>)
    ensures forall j :: 0 <= j < |r| ==> r[j] in s && r[j] !in order
    decreases |s|
  {
    if s == [] then [] else NotIn(s[..|s| - 1], order) + (if s[|s| - 1] in order then [] else [s[|s| - 1]])
  }

  /** The submitted tasks that did not complete, in submission order. */
  function PendingIdx(submitError: seq<Option<string>>, order: seq<nat>): seq<nat> {
    NotIn(SubmittedIdx(submitError, |submitError|), order)
  }

  /** A pending channel is recorded as timed out unless it is already listed as failed. */
  function PendingStep(acc: Lists, names: seq<string>, i: nat): Lists
    requires i < |names|
  {
    if names[i] in acc.failed then acc
    else Lists(acc.successful, acc.failed + [names[i]], acc.errors + [names[i] + ": " + TimeoutText])
  }

  function PendingPhase(acc: Lists, names: seq<string>, idx: seq<nat>): Lists
    requires forall j :: 0 <= j < |idx| ==> idx[j] < |names|
    decreases |idx|
  {
    if idx == [] then acc else PendingStep(PendingPhase(acc, names, idx[..|idx| - 1]), names, idx[|idx| - 1])
  }

  lemma PendingInRange(names: seq<string>, submitError: seq<Option<string>>, order: seq<nat>)
    requires |submitError| == |names|
    ensures forall j :: 0 <= j < |PendingIdx(submitError, order)| ==> PendingIdx(submitError, order)[j] < |names|
  {
    var sub := SubmittedIdx(submitError, |submitError|);
    forall j | 0 <= j < |PendingIdx(submitError, order)| ensures PendingIdx(submitError, order)[j] < |names| {
      var x := PendingIdx(submitError, order)[j];
      assert x in sub;
      var k :| 0 <= k < |sub| && sub[k] == x;
    }
  }

  /** No submitted task is still running at the deadline. */
  predicate AllCompleted(submitError: seq<Option<string>>, order: seq<nat>) {
    forall i :: 0 <= i < |submitError| && submitError[i].None? ==> i in order
  }

  /**
   * The collection when the tasks in `order` complete before the deadline and the other
   * submitted tasks are still pending then.
   */
  function CollectSpec(names: seq<string>, submitError: seq<Option<string>>, order: seq<nat>, outcome: seq<TaskOutcome>): (s: Summary)
    requires WellFormed(names, submitError, outcome) && ValidOrder(submitError, order)
    ensures s.total == |names|
    ensures |names| == 0 ==> s == Summary(0, [], [], [NoNotifiersError])
  {
    if |names| == 0 then Summary(0, [], [], [NoNotifiersError])
    else
      var submitted := SubmitPhase(names, submitError, |names|);
      var completed := CompletePhase(submitted, names, outcome, order);
      PendingInRange(names, submitError, order);
      var final := PendingPhase(completed, names, PendingIdx(submitError, order));
      Summary(|names|, final.successful, final.failed, final.errors)
  }

  /**
   * The collection loop with the deadline handled: submit every task, take the completed ones
   * in `order`, then record the submitted tasks that have not completed as timed out.
   */
  method Collect(names: seq<string>, submitError: seq<Option<string>>, order: seq<nat>, outcome: seq<TaskOutcome>)
    returns (summary: Summary)
    requires WellFormed(names, submitError, outcome) && ValidOrder(submitError, order)
    ensures summary == CollectSpec(names, submitError, order, outcome)
  {
    if |names| == 0 {
      return Summary(0, [], [], [NoNotifiersError]);
    }
    var submitted, lists := SubmitAll(names, submitError);
    lists := TakeCompleted(lists, names, outcome, order);
    var remaining := Remaining(submitted, order);
    PendingInRange(names, submitError, order);
    lists := RecordPending(lists, names, remaining);
    summary := Summary(|names|, lists.successful, lists.failed, lists.errors);
  }

  /** The submit loop: the tasks handed to the pool, and a failure for each one `submit` refused. */
  method SubmitAll(names: seq<string>, submitError: seq<Option<string>>) returns (submitted: seq<nat>, lists: Lists)
    requires |submitError| == |names|
    ensures submitted == SubmittedIdx(submitError, |names|)
    ensures lists == SubmitPhase(names, submitError, |names|)
  {
    var successful: seq<string> := [];
    var failed: seq<string> := [];
    var errors: seq<string> := [];
    submitted := [];
    var i := 0;
    while i < |names|
      invariant 0 <= i <= |names|
      invariant Lists(successful, failed, errors) == SubmitPhase(names, submitError, i)
      invariant submitted == SubmittedIdx(submitError, i)
    {
      match submitError[i] {
        case None =>
          submitted := submitted + [i];
        case Some(msg) =>
          failed := failed + [names[i]];
          errors := errors + [names[i] + ": 提交发送任务失败: " + msg];
      }
      i := i + 1;
    }
    lists := Lists(successful, failed, errors);
  }

  /** The loop over `as_completed`: each completed task's result, or the exception `result()` raised. */
  method TakeCompleted(acc: Lists, names: seq<string>, outcome: seq<TaskOutcome>, order: seq<nat>) returns (lists: Lists)
    requires |outcome| == |names| && forall j :: 0 <= j < |order| ==> order[j] < |names|
    ensures lists == CompletePhase(acc, names, outcome, order)
  {
    var successful, failed, errors := acc.successful, acc.failed, acc.errors;
    var j := 0;
    while j < |order|
      invariant 0 <= j <= |order|
      invariant Lists(successful, failed, errors) == CompletePhase(acc, names, outcome, order[..j])
    {
      assert order[..j + 1][..j] == order[..j];
      var task := order[j];
      match outcome[task] {
        case Done(r) =>
          if r.success {
            successful := successful + [r.channel];
          } else {
            failed := failed + [r.channel];
            errors := errors + [r.channel + ": " + ErrorText(r.error)];
          }
        case Threw(reason) =>
          failed := failed + [names[task]];
          errors := errors + [names[task] + ": 获取发送结果异常: " + reason];
      }
      j := j + 1;
    }
    assert order[..j] == order;
    lists := Lists(successful, failed, errors);
  }

  /** `remaining_futures`: the submitted tasks that are not done, in submission order. */
  method Remaining(submitted: seq<nat>, order: seq<nat>) returns (remaining: seq<nat>)
    ensures remaining == NotIn(submitted, order)
  {
    remaining := [];
    var k := 0;
    while k < |submitted|
      invariant 0 <= k <= |submitted|
      invariant remaining == NotIn(submitted[..k], order)
    {
      assert submitted[..k + 1][..k] == submitted[..k];
      if submitted[k] !in order {
        remaining := remaining + [submitted[k]];
      }
      k := k + 1;
    }
    assert submitted[..k] == submitted;
  }

  /** The pass over pending tasks: a timeout for each channel not already listed as failed. */
  method RecordPending(acc: Lists, names: seq<string>, remaining: seq<nat>) returns (lists: Lists)
    requires forall j :: 0 <= j < |remaining| ==> remaining[j] < |names|
    ensures lists == PendingPhase(acc, names, remaining)
  {
    var successful, failed, errors := acc.successful, acc.failed, acc.errors;
    var m := 0;
    while m < |remaining|
      invariant 0 <= m <= |remaining|
      invariant Lists(successful, failed, errors) == PendingPhase(acc, names, remaining[..m])
    {
      assert remaining[..m + 1][..m] == remaining[..m];
      var task := remaining[m];
      if names[task] !in failed {
        failed := failed + [names[task]];
        errors := errors + [names[task] + ": " + TimeoutText];
      }
      m := m + 1;
    }
    assert remaining[..m] == remaining;
    lists := Lists(successful, failed, errors);
  }

  // ----- facts about the three phases -----

  lemma {:induction false} SubmitPhaseCounts(names: seq<string>, submitError: seq<Option<string>>, k: nat)
    requires k <= |names| && |submitError| == |names|
    ensures SubmitPhase(names, submitError, k).successful == []
    ensures |SubmitPhase(names, submitError, k).failed| == |FailedIdx(submitError, k)|
    ensures |SubmitPhase(names, submitError, k).errors| == |FailedIdx(submitError, k)|
  {
    if k > 0 {
      SubmitPhaseCounts(names, submitError, k - 1);
    }
  }

  lemma {:induction false} CompletePhaseCounts(acc: Lists, names: seq<string>, outcome: seq<TaskOutcome>, order: seq<nat>)
    requires |outcome| == |names| && forall j :: 0 <= j < |order| ==> order[j] < |names|
    ensures var r := CompletePhase(acc, names, outcome, order);
      |r.successful| + |r.failed| == |acc.successful| + |acc.failed| + |order| &&
      |r.errors| + |acc.failed| == |acc.errors| + |r.failed|
    decreases |order|
  {
    if order != [] {
      CompletePhaseCounts(acc, names, outcome, order[..|order| - 1]);
    }
  }

  lemma {:induction false} PendingPhaseFacts(acc: Lists, names: seq<string>, idx: seq<nat>)
    requires forall j :: 0 <= j < |idx| ==> idx[j] < |names|
    ensures var r := PendingPhase(acc, names, idx);
      r.successful == acc.successful &&
      |acc.failed| <= |r.failed| <= |acc.failed| + |idx| && r.failed[..|acc.failed|] == acc.failed &&
      |r.errors| + |acc.failed| == |acc.errors| + |r.failed| &&
      forall j :: 0 <= j < |idx| ==> names[idx[j]] in r.failed
    decreases |idx|
  {
    if idx != [] {
      var init := idx[..|idx| - 1];
      PendingPhaseFacts(acc, names, init);
      var before := PendingPhase(acc, names, init);
      var r := PendingPhase(acc, names, idx);
      assert r.failed[..|before.failed|] == before.failed;
      assert r.failed[..|acc.failed|] == before.failed[..|acc.failed|];
      forall j | 0 <= j < |idx| ensures names[idx[j]] in r.failed {
        if j < |idx| - 1 {
          assert idx[j] == init[j];
          assert names[init[j]] in before.failed;
        }
      }
    }
  }

  /**
   * Every failure carries its one error line; the pending pass removes nothing and leaves the
   * successful channels alone; every pending channel ends up listed as failed.
   */
  lemma ErrorsMatchFailures(names: seq<string>, submitError: seq<Option<string>>, order: seq<nat>, outcome: seq<TaskOutcome>)
    requires WellFormed(names, submitError, outcome) && ValidOrder(submitError, order) && |names| > 0
    ensures var s := CollectSpec(names, submitError, order, outcome);
      var completed := CompletePhase(SubmitPhase(names, submitError, |names|), names, outcome, order);
      |s.errors| == |s.failed| &&
      s.successful == completed.successful &&
      |completed.failed| <= |s.failed| && s.failed[..|completed.failed|] == completed.failed &&
      forall j :: 0 <= j < |PendingIdx(submitError, order)| ==> names[PendingIdx(submitError, order)[j]] in s.failed
  {
    var submitted := SubmitPhase(names, submitError, |names|);
    SubmitPhaseCounts(names, submitError, |names|);
    CompletePhaseCounts(submitted, names, outcome, order);
    PendingInRange(names, submitError, order);
    PendingPhaseFacts(CompletePhase(submitted, names, outcome, order), names, PendingIdx(submitError, order));
  }

  // ----- index bookkeeping -----

  lemma {:induction false} SubmittedIdxMembership(submitError: seq<Option<string>>, k: nat, i: nat)
    requires k <= |submitError|
    ensures i in SubmittedIdx(submitError, k) <==> i < k && Submitted(submitError, i)
  {
    if k > 0 {
      SubmittedIdxMembership(submitError, k - 1, i);
    }
  }

  lemma {:induction false} SubmittedIdxDistinct(submitError: seq<Option<string>>, k: nat)
    requires k <= |submitError|
    ensures Distinct(SubmittedIdx(submitError, k))
  {
    if k > 0 {
      SubmittedIdxDistinct(submitError, k - 1);
      var init := SubmittedIdx(submitError, k - 1);
      var all := SubmittedIdx(submitError, k);
      forall a, b | 0 <= a < b < |all| ensures all[a] != all[b] {
        if b == |init| {
          assert all[a] == init[a] && init[a] < k - 1;
        } else {
          assert all[a] == init[a] && all[b] == init[b];
        }
      }
    }
  }

  lemma {:induction false} FailedSubmittedCount(submitError: seq<Option<string>>, k: nat)
    requires k <= |submitError|
    ensures |FailedIdx(submitError, k)| + |SubmittedIdx(submitError, k)| == k
  {
    if k > 0 {
      FailedSubmittedCount(submitError, k - 1);
    }
  }

  lemma {:induction false} NotInMembership(s: seq<nat>, order: seq<nat>, x: nat)
    ensures x in NotIn(s, order) <==> x in s && x !in order
    decreases |s|
  {
    if s != [] {
      NotInMembership(s[..|s| - 1], order, x);
      assert s == s[..|s| - 1] + [s[|s| - 1]];
    }
  }

  lemma {:induction false} NotInDistinct(s: seq<nat>, order: seq<nat>)
    requires Distinct(s)
    ensures Distinct(NotIn(s, order))
    decreases |s|
  {
    if s != [] {
      var init := s[..|s| - 1];
      var last := s[|s| - 1];
      assert Distinct(init) by {
        forall a, b | 0 <= a < b < |init| ensures init[a] != init[b] {
          assert init[a] == s[a] && init[b] == s[b];
        }
      }
      NotInDistinct(init, order);
      var before := NotIn(init, order);
      if last !in order {
        assert last !in init by {
          forall a | 0 <= a < |init| ensures init[a] != last {
            assert init[a] == s[a];
          }
        }
        NotInMembership(init, order, last);
        var all := NotIn(s, order);
        assert all == before + [last];
        forall a, b | 0 <= a < b < |all| ensures all[a] != all[b] {
          if b == |before| {
            assert all[a] == before[a] && before[a] in before;
          } else {
            assert all[a] == before[a] && all[b] == before[b];
          }
        }
      }
    }
  }

  /** The submitted tasks split into the completed ones and the pending ones. */
  lemma CompletedPlusPending(submitError: seq<Option<string>>, order: seq<nat>)
    requires ValidOrder(submitError, order)
    ensures |order| + |PendingIdx(submitError, order)| == |SubmittedIdx(submitError, |submitError|)|
  {
    var n := |submitError|;
    var sub := SubmittedIdx(submitError, n);
    var pend := PendingIdx(submitError, order);
    SubmittedIdxDistinct(submitError, n);
    NotInDistinct(sub, order);
    forall j | 0 <= j < |order| ensures order[j] < n {
      assert Submitted(submitError, order[j]);
    }
    forall j | 0 <= j < |pend| ensures pend[j] < n {
      assert pend[j] in sub;
      var t :| 0 <= t < |sub| && sub[t] == pend[j];
    }
    DistinctIndicesCount(order, n);
    DistinctIndicesCount(sub, n);
    DistinctIndicesCount(pend, n);
    forall i: nat | i < n ensures (i in sub <==> i in order || i in pend) && !(i in order && i in pend) {
      SubmittedIdxMembership(submitError, n, i);
      NotInMembership(sub, order, i);
      if i in order {
        var t :| 0 <= t < |order| && order[t] == i;
        assert Submitted(submitError, order[t]);
      }
    }
    CountInPartition(sub, order, pend, n);
  }

  /**
   * When every submitted task completes before the deadline, each channel lands in exactly
   * one of the two lists: together they have one entry per notifier.
   */
  lemma AllCompletedCount(names: seq<string>, submitError: seq<Option<string>>, order: seq<nat>, outcome: seq<TaskOutcome>)
    requires WellFormed(names, submitError, outcome) && ValidOrder(submitError, order) && |names| > 0
    requires AllCompleted(submitError, order)
    ensures |CollectSpec(names, submitError, order, outcome).successful| + |CollectSpec(names, submitError, order, outcome).failed| == |names|
    ensures PendingIdx(submitError, order) == []
  {
    var n := |names|;
    var submitted := SubmitPhase(names, submitError, n);
    SubmitPhaseCounts(names, submitError, n);
    CompletePhaseCounts(submitted, names, outcome, order);
    CompletedPlusPending(submitError, order);
    FailedSubmittedCount(submitError, n);
    var pend := PendingIdx(submitError, order);
    if pend != [] {
      NotInMembership(SubmittedIdx(submitError, n), order, pend[0]);
      SubmittedIdxMembership(submitError, n, pend[0]);
      assert false;
    }
  }

  // ----- where each channel ends up -----

  /** Task `i` completed with a successful result. */
  predicate Succeeded(outcome: seq<TaskOutcome>, i: nat) {
    i < |outcome| && outcome[i].Done? && outcome[i].result.success
  }

  lemma {:induction false} SubmitPhaseMembership(names: seq<string>, submitError: seq<Option<string>>, k: nat, i: nat)
    requires k <= |names| && |submitError| == |names| && i < |names| && Distinct(names)
    ensures names[i] in SubmitPhase(names, submitError, k).failed <==> i < k && !Submitted(submitError, i)
  {
    if k > 0 {
      SubmitPhaseMembership(names, submitError, k - 1, i);
    }
  }

  lemma {:induction false} CompletePhaseMembership(acc: Lists, names: seq<string>, outcome: seq<TaskOutcome>, order: seq<nat>, i: nat)
    requires NamedOutcomes(names, outcome) && Distinct(names) && i < |names|
    requires forall j :: 0 <= j < |order| ==> order[j] < |names|
    ensures var r := CompletePhase(acc, names, outcome, order);
      (names[i] in r.successful <==> names[i] in acc.successful || (i in order && Succeeded(outcome, i))) &&
      (names[i] in r.failed <==> names[i] in acc.failed || (i in order && !Succeeded(outcome, i)))
    decreases |order|
  {
    if order != [] {
      var init := order[..|order| - 1];
      var last := order[|order| - 1];
      CompletePhaseMembership(acc, names, outcome, init, i);
      assert order == init + [last];
      assert names[last] == names[i] <==> last == i;
    }
  }

  lemma {:induction false} PendingPhaseMembership(acc: Lists, names: seq<string>, idx: seq<nat>, i: nat)
    requires Distinct(names) && i < |names|
    requires forall j :: 0 <= j < |idx| ==> idx[j] < |names|
    ensures names[i] in PendingPhase(acc, names, idx).failed <==> names[i] in acc.failed || i in idx
    decreases |idx|
  {
    if idx != [] {
      var init := idx[..|idx| - 1];
      var last := idx[|idx| - 1];
      PendingPhaseMembership(acc, names, init, i);
      assert idx == init + [last];
      assert names[last] == names[i] <==> last == i;
    }
  }

  /** With channels all fresh, the pending pass adds one failure per pending task. */
  lemma {:induction false} PendingPhaseFreshCount(acc: Lists, names: seq<string>, idx: seq<nat>)
    requires Distinct(names) && Distinct(idx)
    requires forall j :: 0 <= j < |idx| ==> idx[j] < |names| && names[idx[j]] !in acc.failed
    ensures |PendingPhase(acc, names, idx).failed| == |acc.failed| + |idx|
    decreases |idx|
  {
    if idx != [] {
      var init := idx[..|idx| - 1];
      var last := idx[|idx| - 1];
      assert Distinct(init) by {
        forall a, b | 0 <= a < b < |init| ensures init[a] != init[b] {
          assert init[a] == idx[a] && init[b] == idx[b];
        }
      }
      PendingPhaseFreshCount(acc, names, init);
      PendingPhaseMembership(acc, names, init, last);
      assert last !in init by {
        forall a | 0 <= a < |init| ensures init[a] != last {
          assert init[a] == idx[a];
        }
      }
    }
  }

  /**
   * With distinct channel names, a channel is listed as successful exactly when its task was
   * submitted, completed in time and succeeded, and as failed in every other case: never
   * both, never neither.
   */
  lemma ChannelListedOnce(names: seq<string>, submitError: seq<Option<string>>, order: seq<nat>, outcome: seq<TaskOutcome>, i: nat)
    requires WellFormed(names, submitError, outcome) && ValidOrder(submitError, order) && |names| > 0
    requires Distinct(names) && NamedOutcomes(names, outcome) && i < |names|
    ensures var s := CollectSpec(names, submitError, order, outcome);
      (names[i] in s.successful <==> Submitted(submitError, i) && i in order && Succeeded(outcome, i)) &&
      (names[i] in s.failed <==> !(Submitted(submitError, i) && i in order && Succeeded(outcome, i)))
  {
    var n := |names|;
    var submitted := SubmitPhase(names, submitError, n);
    var completed := CompletePhase(submitted, names, outcome, order);
    var pend := PendingIdx(submitError, order);
    forall j | 0 <= j < |order| ensures order[j] < n {
      assert Submitted(submitError, order[j]);
    }
    SubmitPhaseCounts(names, submitError, n);
    SubmitPhaseMembership(names, submitError, n, i);
    CompletePhaseMembership(submitted, names, outcome, order, i);
    PendingInRange(names, submitError, order);
    PendingPhaseMembership(completed, names, pend, i);
    PendingPhaseFacts(completed, names, pend);
    NotInMembership(SubmittedIdx(submitError, n), order, i);
    SubmittedIdxMembership(submitError, n, i);
    if i in order {
      var t :| 0 <= t < |order| && order[t] == i;
      assert Submitted(submitError, order[t]);
    }
  }

  /** With distinct channel names the two lists together have one entry per notifier, timeouts included. */
  lemma EveryChannelAccounted(names: seq<string>, submitError: seq<Option<string>>, order: seq<nat>, outcome: seq<TaskOutcome>)
    requires WellFormed(names, submitError, outcome) && ValidOrder(submitError, order) && |names| > 0
    requires Distinct(names) && NamedOutcomes(names, outcome)
    ensures |CollectSpec(names, submitError, order, outcome).successful| + |CollectSpec(names, submitError, order, outcome).failed| == |names|
  {
    var n := |names|;
    var submitted := SubmitPhase(names, submitError, n);
    var completed := CompletePhase(submitted, names, outcome, order);
    var pend := PendingIdx(submitError, order);
    forall j | 0 <= j < |order| ensures order[j] < n {
      assert Submitted(submitError, order[j]);
    }
    SubmitPhaseCounts(names, submitError, n);
    CompletePhaseCounts(submitted, names, outcome, order);
    CompletedPlusPending(submitError, order);
    FailedSubmittedCount(submitError, n);
    PendingInRange(names, submitError, order);
    SubmittedIdxDistinct(submitError, n);
    NotInDistinct(SubmittedIdx(submitError, n), order);
    forall j | 0 <= j < |pend| ensures names[pend[j]] !in completed.failed {
      var x := pend[j];
      NotInMembership(SubmittedIdx(submitError, n), order, x);
      SubmittedIdxMembership(submitError, n, x);
      SubmitPhaseMembership(names, submitError, n, x);
      CompletePhaseMembership(submitted, names, outcome, order, x);
    }
    PendingPhaseFreshCount(completed, names, pend);
    PendingPhaseFacts(completed, names, pend);
  }

  // ----- the deadline as written -----

  /**
   * The collection as written: `as_completed(futures, timeout)` raises `TimeoutError` out of
   * the collection (`None` here) as soon as a task is still running at the deadline, so the
   * pending pass only ever runs when nothing is pending.
   */
  function CollectAsWritten(names: seq<string>, submitError: seq<Option<string>>, order: seq<nat>, outcome: seq<TaskOutcome>): (r: Option<Summary>)
    requires WellFormed(names, submitError, outcome) && ValidOrder(submitError, order)
    ensures r.None? <==> |names| > 0 && !AllCompleted(submitError, order)
    ensures r.Some? ==> r.value == CollectSpec(names, submitError, order, outcome)
  {
    if |names| == 0 then Some(Summary(0, [], [], [NoNotifiersError]))
    else if AllCompleted(submitError, order) then
      AllCompletedCount(names, submitError, order, outcome);
      var completed := CompletePhase(SubmitPhase(names, submitError, |names|), names, outcome, order);
      Some(Summary(|names|, completed.successful, completed.failed, completed.errors))
    else None
  }

  /** One channel still sending at the deadline: as written, no summary comes back at all. */
  lemma TimeoutExampleAsWritten()
    ensures CollectAsWritten(["Bark"], [None], [], [Done(CreateSuccessResult("Bark"))]).None?
  {
    var se: seq<Option<string>> := [None];
    assert !AllCompleted(se, []) by {
      assert se[0].None? && 0 !in [];
    }
  }

  /** The same run with the deadline handled: the channel is reported as timed out. */
  lemma TimeoutExampleHandled()
    ensures CollectSpec(["Bark"], [None], [], [Done(CreateSuccessResult("Bark"))]) ==
      Summary(1, [], ["Bark"], ["Bark" + ": " + TimeoutText])
  {
    var names := ["Bark"];
    var se: seq<Option<string>> := [None];
    var out := [Done(CreateSuccessResult("Bark"))];
    assert SubmitPhase(names, se, 1) == Lists([], [], []);
    assert SubmittedIdx(se, 1) == [0];
    var sub: seq<nat> := [0];
    assert sub[..0] == [];
    assert NotIn(sub, []) == [0];
    assert PendingIdx(se, []) == [0];
    var acc := Lists([], [], []);
    assert CompletePhase(acc, names, out, []) == acc;
    assert PendingPhase(acc, names, [0]) == PendingStep(acc, names, 0);
  }
}
