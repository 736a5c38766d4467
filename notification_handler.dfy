/**
 * The dispatcher: the short-circuits of `send_notification`, the active-notifier filter, the
 * skip list and the hitokoto suffix, the single send with its retry policy, the reclassification
 * of failures as retryable exceptions, and the friendly error text.
 */
module NotificationHandler {
  import opened Wrappers
  import opened Text
  import opened Seqs
  import opened NotifierBase
  import opened RetryHandler
  import opened Aggregation
  import opened ConfigManager

  // ----- retryable results -----

  /** The words that mark an error text as worth retrying (compared with the lower-cased text). */
  const RetryableKeywords: seq<string> := [
    "timeout", "连接超时", "网络", "network", "connection",
    "temporary", "临时", "503", "502", "504", "429",
    "服务不可用", "service unavailable", "too many requests"
  ]

  /** `_is_retryable_error`: a non-empty error text containing a keyword, ignoring ASCII case. */
  predicate IsRetryableError(error: Option<string>) {
    error.Some? && error.value != "" && ContainsAny(Lower(error.value), RetryableKeywords)
  }

  /** The test ignores case: an error text and its lower-cased form are judged alike, and an absent or empty text never is retryable. */
  lemma RetryableErrorIgnoresCase(s: string)
    ensures IsRetryableError(Some(s)) <==> IsRetryableError(Some(Lower(s)))
    ensures !IsRetryableError(None) && !IsRetryableError(Some(""))
  {
    LowerIdempotent(s);
  }

  /** The words that make `_execute_notification_send` turn any other exception into a `NetworkError`. */
  const WrapKeywords: seq<string> := ["timeout", "connection", "network", "temporary", "503", "502", "504"]

  /** The policy `_send_single_notification` builds; the tuning keys it reads are never loaded, so their defaults apply. */
  const SingleSendConfig: RetryConfig :=
    NewRetryConfig(2, 1.0, 10.0, Exponential, 2.0, true, Some([NetworkErrorC, TemporaryErrorC, ConnectionErrorC, TimeoutErrorC]))

  /** A `NetworkError` is always retried by the single-send policy. */
  lemma NetworkErrorRetried(msg: string)
    ensures IsRetryableException(SingleSendConfig, Exc(NetworkErrorC, msg))
  {
    assert IsInstance(Exc(NetworkErrorC, msg), SingleSendConfig.retryable[0]);
  }

  /**
   * The `except` clauses of `_execute_notification_send`: a `ConnectionError` or `TimeoutError`
   * becomes a `NetworkError`, so does any other exception whose lower-cased text has a wrap
   * keyword, and the rest are raised again unchanged.
   */
  function Reraise(e: Exc): (r: Exc)
    ensures IsInstance(e, ConnectionErrorC) || IsInstance(e, TimeoutErrorC) ==> r == Exc(NetworkErrorC, "网络连接异常: " + e.msg)
    ensures !IsInstance(e, ConnectionErrorC) && !IsInstance(e, TimeoutErrorC) && ContainsAny(Lower(e.msg), WrapKeywords) ==>
      r == Exc(NetworkErrorC, "网络相关异常: " + e.msg)
    ensures !IsInstance(e, ConnectionErrorC) && !IsInstance(e, TimeoutErrorC) && !ContainsAny(Lower(e.msg), WrapKeywords) ==>
      r == e
    ensures IsRetryableException(SingleSendConfig, r) <==>
      IsRetryableException(SingleSendConfig, e) || ContainsAny(Lower(e.msg), WrapKeywords)
  {
    var r := if IsInstance(e, ConnectionErrorC) || IsInstance(e, TimeoutErrorC) then Exc(NetworkErrorC, "网络连接异常: " + e.msg)
      else if ContainsAny(Lower(e.msg), WrapKeywords) then Exc(NetworkErrorC, "网络相关异常: " + e.msg)
      else e;
    NetworkErrorRetried(r.msg);
    RetriedUnderSingleSend(e);
    r
  }

  /** Under the single-send policy, the retried exceptions are the instances of its four classes. */
  lemma RetriedUnderSingleSend(e: Exc)
    ensures IsRetryableException(SingleSendConfig, e) <==>
      IsInstance(e, NetworkErrorC) || IsInstance(e, TemporaryErrorC) || IsInstance(e, ConnectionErrorC) || IsInstance(e, TimeoutErrorC)
  {
    var l := SingleSendConfig.retryable;
    assert l == [NetworkErrorC, TemporaryErrorC, ConnectionErrorC, TimeoutErrorC];
    if IsInstance(e, NetworkErrorC) { assert IsInstance(e, l[0]); }
    if IsInstance(e, TemporaryErrorC) { assert IsInstance(e, l[1]); }
    if IsInstance(e, ConnectionErrorC) { assert IsInstance(e, l[2]); }
    if IsInstance(e, TimeoutErrorC) { assert IsInstance(e, l[3]); }
  }

  /** The failure text names a network problem: 网络, 连接, or "timeout" in any case. */
  predicate NamesNetwork(s: string) {
    Contains(s, "网络") || Contains(s, "连接") || Contains(Lower(s), "timeout")
  }

  /** The failure text names a temporary problem: 临时, or "temporary" in any case. */
  predicate NamesTemporary(s: string) {
    Contains(s, "临时") || Contains(Lower(s), "temporary")
  }

  /**
   * `_execute_notification_send` given what `notifier.send` did: a failed result with a
   * retryable error that names a network or temporary problem is raised as `NetworkError` or
   * `TemporaryError` (and then passes the same `except` clauses); any other result is returned.
   */
  function ExecuteSend(out: Outcome<NotificationResult>): (res: Outcome<NotificationResult>)
    ensures out.Returned? && res.Returned? ==> res == out
    ensures out.Returned? && out.value.success ==> res == out
    ensures out.Returned? && res.Raised? ==>
      !out.value.success && IsRetryableError(out.value.error) && IsRetryableException(SingleSendConfig, res.exc)
    ensures out.Returned? && !out.value.success && IsRetryableError(out.value.error) ==>
      (res.Raised? <==> NamesNetwork(out.value.error.value) || NamesTemporary(out.value.error.value))
    ensures out.Raised? ==> res == Raised(Reraise(out.exc))
    ensures out.Raised? ==> (res.Raised? &&
      (IsRetryableException(SingleSendConfig, res.exc) <==>
        IsRetryableException(SingleSendConfig, out.exc) || ContainsAny(Lower(out.exc.msg), WrapKeywords)))
  {
    match out
    case Raised(e) => Raised(Reraise(e))
    case Returned(r) =>
      if !r.success && IsRetryableError(r.error) then
        var s := r.error.value;
        if NamesNetwork(s) then
          NetworkErrorRetried("网络错误: " + s);
          Raised(Reraise(Exc(NetworkErrorC, "网络错误: " + s)))
        else if NamesTemporary(s) then
          RetriedUnderSingleSend(Exc(TemporaryErrorC, "临时错误: " + s));
          Raised(Reraise(Exc(TemporaryErrorC, "临时错误: " + s)))
        else Returned(r)
      else Returned(r)
  }

  /** A failure retryable only through a status code or another keyword is returned as it is, and the send is not repeated. */
  lemma StatusOnlyFailureNotRetried(name: string, sends: nat -> Outcome<NotificationResult>, r: NotificationResult)
    requires sends(1) == Returned(r) && !r.success && IsRetryableError(r.error)
    requires !NamesNetwork(r.error.value) && !NamesTemporary(r.error.value)
    ensures Retry(SingleSendConfig, Attempt(sends)) == (Returned(r), 1)
    ensures SingleResult(name, sends) == r
  {
  }

  // ----- the error text -----

  /** `_format_error_message`: a friendly prefix for the four retry classes, else the class name. */
  function FormatErrorMessage(e: Exc): (s: string)
    ensures |e.msg| < |s| && s[|s| - |e.msg|..] == e.msg
    ensures IsInstance(e, NetworkErrorC) ==> s == "网络错误: " + e.msg
    ensures !IsInstance(e, NetworkErrorC) && IsInstance(e, TemporaryErrorC) ==> s == "临时错误: " + e.msg
    ensures !IsInstance(e, NetworkErrorC) && !IsInstance(e, TemporaryErrorC) && IsInstance(e, ConnectionErrorC) ==>
      s == "连接错误: " + e.msg
    ensures (!IsInstance(e, NetworkErrorC) && !IsInstance(e, TemporaryErrorC) && !IsInstance(e, ConnectionErrorC) &&
      IsInstance(e, TimeoutErrorC)) ==> s == "超时错误: " + e.msg
    ensures (!IsInstance(e, NetworkErrorC) && !IsInstance(e, TemporaryErrorC) &&
      !IsInstance(e, ConnectionErrorC) && !IsInstance(e, TimeoutErrorC)) ==> s == Name(e.cls) + ": " + e.msg
  {
    if IsInstance(e, NetworkErrorC) then "网络错误: " + e.msg
    else if IsInstance(e, TemporaryErrorC) then "临时错误: " + e.msg
    else if IsInstance(e, ConnectionErrorC) then "连接错误: " + e.msg
    else if IsInstance(e, TimeoutErrorC) then "超时错误: " + e.msg
    else Name(e.cls) + ": " + e.msg
  }

  // ----- one channel -----

  /** The function the retry loop calls: call `k` runs `_execute_notification_send` around send `k`. */
  function Attempt(sends: nat -> Outcome<NotificationResult>): nat -> Outcome<NotificationResult> {
    (k: nat) => ExecuteSend(sends(k))
  }

  /** The failure `_send_single_notification` returns for an exception that escapes the retry loop. */
  function ExceptionFailure(name: string, e: Exc): NotificationResult {
    NotificationResult(false, name, DefaultErrorMessage, Some(FormatErrorMessage(e)))
  }

  /**
   * The retry loop of the single send: a first attempt that returns or raises something not
   * retried ends it; otherwise the second attempt's outcome is final.
   */
  lemma SingleSendRetry(sends: nat -> Outcome<NotificationResult>)
    ensures var a1 := ExecuteSend(sends(1));
      (a1.Returned? || !IsRetryableException(SingleSendConfig, a1.exc)) ==> Retry(SingleSendConfig, Attempt(sends)) == (a1, 1)
    ensures var a1 := ExecuteSend(sends(1));
      a1.Raised? && IsRetryableException(SingleSendConfig, a1.exc) ==>
        Retry(SingleSendConfig, Attempt(sends)) == (ExecuteSend(sends(2)), 2)
  {
    var op := Attempt(sends);
    assert op(1) == ExecuteSend(sends(1)) && op(2) == ExecuteSend(sends(2));
    assert SingleSendConfig.maxAttempts == 2 && SingleSendConfig.jitter;
  }

  /**
   * `_send_single_notification` given the outcome `sends(k)` of the notifier's `k`-th send.
   * It never raises: the first attempt's result, or the second's after a retried exception;
   * an exception that escapes becomes a "发送失败" failure for the channel with the formatted
   * exception as its error.
   */
  function SingleResult(name: string, sends: nat -> Outcome<NotificationResult>): (r: NotificationResult)
    ensures r.success ==> sends(1) == Returned(r) || sends(2) == Returned(r)
    ensures sends(1).Returned? && sends(1).value.success ==> r == sends(1).value
    ensures !r.success ==> r.channel == name || sends(1) == Returned(r) || sends(2) == Returned(r)
    ensures var a1 := ExecuteSend(sends(1));
      a1.Returned? ==> r == a1.value
    ensures var a1 := ExecuteSend(sends(1));
      a1.Raised? && !IsRetryableException(SingleSendConfig, a1.exc) ==> r == ExceptionFailure(name, a1.exc)
    ensures var a1, a2 := ExecuteSend(sends(1)), ExecuteSend(sends(2));
      a1.Raised? && IsRetryableException(SingleSendConfig, a1.exc) ==>
        r == (if a2.Returned? then a2.value else ExceptionFailure(name, a2.exc))
    ensures sends(1).Raised? && !IsRetryableException(SingleSendConfig, Reraise(sends(1).exc)) ==>
      r == NotificationResult(false, name, "发送失败", Some(FormatErrorMessage(Reraise(sends(1).exc))))
    ensures sends(1).Raised? && IsRetryableException(SingleSendConfig, Reraise(sends(1).exc)) && sends(2).Raised? ==>
      r == NotificationResult(false, name, "发送失败", Some(FormatErrorMessage(Reraise(sends(2).exc))))
  {
    var res := Retry(SingleSendConfig, Attempt(sends));
    SingleSendRetry(sends);
    match res.0
    case Returned(v) =>
      assert Attempt(sends)(res.1) == ExecuteSend(sends(res.1));
      v
    case Raised(e) => ExceptionFailure(name, e)
  }

  /** `_send_single_notification` run through the retry loop: at most two sends, and the result does not depend on the jitter drawn. */
  method SendSingleNotification(name: string, sends: nat -> Outcome<NotificationResult>, noise: nat -> real)
    returns (r: NotificationResult, calls: nat)
    requires forall k :: 0.0 <= noise(k) <= 1.0
    ensures r == SingleResult(name, sends)
    ensures 1 <= calls <= 2
  {
    var outcome, n, sleeps := ExecuteWithRetry(SingleSendConfig, Attempt(sends), noise);
    calls := n;
    match outcome {
      case Returned(v) => r := v;
      case Raised(e) => r := ExceptionFailure(name, e);
    }
  }

  /** A lower-case keyword at the end of a text is found by the case-insensitive test. */
  lemma KeywordAtEnd(a: string, kw: string)
    requires Lower(kw) == kw
    ensures Contains(Lower(a + kw), kw)
  {
    LowerConcat(a, kw);
    assert Contains(kw, kw) by {
      assert StartsWith(kw, kw);
    }
    ContainsAfterPrefix(Lower(a), kw, kw);
  }

  /** A failure text ending in "timeout" is raised as a `NetworkError`, and since that text still holds "timeout" it is wrapped once more. */
  lemma TimeoutFailureReclassified(r: NotificationResult, a: string)
    requires !r.success && r.error == Some(a + "timeout")
    ensures ExecuteSend(Returned(r)) == Raised(Exc(NetworkErrorC, "网络相关异常: " + ("网络错误: " + (a + "timeout"))))
  {
    var s := a + "timeout";
    KeywordAtEnd(a, "timeout");
    assert Contains(Lower(s), RetryableKeywords[0]);
    assert IsRetryableError(r.error) && NamesNetwork(s);
    var m := "网络错误: " + s;
    assert m == ("网络错误: " + a) + "timeout";
    KeywordAtEnd("网络错误: " + a, "timeout");
    assert Contains(Lower(m), WrapKeywords[0]);
    var e := Exc(NetworkErrorC, m);
    assert !IsInstance(e, ConnectionErrorC) && !IsInstance(e, TimeoutErrorC);
    assert Reraise(e) == Exc(NetworkErrorC, "网络相关异常: " + m);
  }

  /** A channel that keeps failing with a text ending in "timeout" is sent to twice and reports the twice-wrapped exception. */
  lemma TimeoutFailureRetriedOnce(name: string, a: string)
    ensures var r := NotificationResult(false, name, DefaultErrorMessage, Some(a + "timeout"));
      var sends := (k: nat) => Returned(r);
      Retry(SingleSendConfig, Attempt(sends)).1 == 2 &&
      SingleResult(name, sends) ==
        NotificationResult(false, name, DefaultErrorMessage, Some("网络错误: " + ("网络相关异常: " + ("网络错误: " + (a + "timeout")))))
  {
    var r := NotificationResult(false, name, DefaultErrorMessage, Some(a + "timeout"));
    var sends := (k: nat) => Returned(r);
    TimeoutFailureReclassified(r, a);
    var e := Exc(NetworkErrorC, "网络相关异常: " + ("网络错误: " + (a + "timeout")));
    NetworkErrorRetried(e.msg);
    forall k | 1 <= k <= SingleSendConfig.maxAttempts
      ensures Attempt(sends)(k).Raised? && IsRetryableException(SingleSendConfig, Attempt(sends)(k).exc)
    {
      assert Attempt(sends)(k) == Raised(e);
    }
    ExhaustedRaisesLast(SingleSendConfig, Attempt(sends));
    assert Attempt(sends)(2) == Raised(e);
  }

  // ----- the dispatcher -----

  /** A notifier: its channel name, whether `is_configured()` holds, and what `send(title, content)` does on its `k`-th call. */
  datatype Notifier = Notifier(name: string, configured: bool, send: (string, string, nat) -> Outcome<NotificationResult>)

  predicate IsActive(n: Notifier) {
    n.configured
  }

  /** `get_active_notifiers`: the configured notifiers, in their original order. */
  function ActiveNotifiers(ns: seq<Notifier>): (r: seq<Notifier>)
    ensures |r| <= |ns|
    ensures forall i :: 0 <= i < |r| ==> r[i].configured
  {
    Filter(ns, IsActive)
  }

  /** A notifier is active exactly when it is registered and configured, and the filter keeps the order of registration. */
  lemma ActiveExactlyConfigured(ns: seq<Notifier>, more: seq<Notifier>, n: Notifier)
    ensures n in ActiveNotifiers(ns) <==> n in ns && n.configured
    ensures ActiveNotifiers(ns + more) == ActiveNotifiers(ns) + ActiveNotifiers(more)
  {
    FilterMembership(ns, IsActive, n);
    FilterConcat(ns, more, IsActive);
  }

  /** There is no active notifier exactly when none is configured. */
  lemma {:induction false} NoActiveIffNoneConfigured(ns: seq<Notifier>)
    ensures ActiveNotifiers(ns) == [] <==> forall i :: 0 <= i < |ns| ==> !ns[i].configured
  {
    if ActiveNotifiers(ns) != [] {
      var n := ActiveNotifiers(ns)[0];
      FilterMembership(ns, IsActive, n);
      var i :| 0 <= i < |ns| && ns[i] == n;
    } else {
      forall i | 0 <= i < |ns| ensures !ns[i].configured {
        FilterMembership(ns, IsActive, ns[i]);
      }
    }
  }

  function Names(ns: seq<Notifier>): (r: seq<string>)
    ensures |r| == |ns| && forall i :: 0 <= i < |ns| ==> r[i] == ns[i].name
  {
    seq(|ns|, i requires 0 <= i < |ns| => ns[i].name)
  }

  /** `_should_skip_push`: the title is one of the lines of a non-empty `SKIP_PUSH_TITLE`. */
  predicate ShouldSkipPush(c: Cache, title: string) {
    var skip := GetConfig(c, "SKIP_PUSH_TITLE");
    IsSet(skip) && title in Split(skip.value, '\n')
  }

  /** A title with a line break is never skipped, and neither is any title when the skip list is unset or empty. */
  lemma SkippedTitleIsOneLine(c: Cache, title: string)
    ensures ShouldSkipPush(c, title) ==> '\n' !in title && IsSet(GetConfig(c, "SKIP_PUSH_TITLE"))
  {
    if ShouldSkipPush(c, title) {
      var parts := Split(GetConfig(c, "SKIP_PUSH_TITLE").value, '\n');
      var i :| 0 <= i < |parts| && parts[i] == title;
    }
  }

  /** A skip list written as one title per line skips exactly the listed titles. */
  lemma SkipListOfTitles(c: Cache, titles: seq<string>, title: string)
    requires |titles| >= 1 && forall i :: 0 <= i < |titles| ==> '\n' !in titles[i]
    requires GetConfig(c, "SKIP_PUSH_TITLE") == Some(Join(titles, "\n"))
    requires Join(titles, "\n") != ""
    ensures ShouldSkipPush(c, title) <==> title in titles
  {
    SplitJoin(titles, '\n');
  }

  /** `_add_hitokoto_if_enabled`, given the `(hitokoto, from)` pair fetched, or `None` when the fetch failed. */
  function AddHitokoto(c: Cache, content: string, fetched: Option<(string, string)>): (r: string)
    ensures !c.hitokoto || fetched.None? ==> r == content
    ensures c.hitokoto && fetched.Some? ==>
      StartsWith(r, content + "\n\n") && r[|content| + 2..] == fetched.value.0 + "    ----" + fetched.value.1
  {
    if c.hitokoto && fetched.Some? then content + "\n\n" + (fetched.value.0 + "    ----" + fetched.value.1) else content
  }

  /** The summaries `send_notification` returns before any notifier is called. */
  const EmptyContentError: string := "推送内容为空"
  const SkippedTitleError: string := "标题在跳过列表中"
  const NoConfiguredError: string := "没有配置任何通知器"

  /** The defaults of the pool's tuning keys, which the loader never stores. */
  const DefaultTimeout: nat := 30
  const DefaultMaxWorkers: nat := 10

  /** `max_workers`: one thread per channel, at most `MAX_CONCURRENT_NOTIFICATIONS`. */
  function WorkerCount(c: Cache, channels: nat): (w: nat)
    requires Loaded(c)
    ensures w <= channels && w <= DefaultMaxWorkers
    ensures w == channels || w == DefaultMaxWorkers
  {
    TuningKeysNeverLoaded(c, 1);
    if channels < DefaultMaxWorkers then channels else DefaultMaxWorkers
  }

  /** The outcomes of a notifier's successive sends of one message. */
  function Sends(n: Notifier, title: string, content: string): nat -> Outcome<NotificationResult> {
    (k: nat) => n.send(title, content, k)
  }

  /** What each active channel's single send yields once its task completes. */
  function Outcomes(active: seq<Notifier>, title: string, content: string): (r: seq<TaskOutcome>)
    ensures |r| == |active|
    ensures forall i :: 0 <= i < |active| ==> r[i] == Done(SingleResult(active[i].name, Sends(active[i], title, content)))
  {
    seq(|active|, i requires 0 <= i < |active| => Done(SingleResult(active[i].name, Sends(active[i], title, content))))
  }

  /** With notifiers that report their own channel, every task's result names its notifier's channel. */
  lemma OutcomesNamed(active: seq<Notifier>, title: string, content: string)
    requires forall i, k :: 0 <= i < |active| && active[i].send(title, content, k).Returned? ==>
      active[i].send(title, content, k).value.channel == active[i].name
    ensures NamedOutcomes(Names(active), Outcomes(active, title, content))
  {
    var outcomes := Outcomes(active, title, content);
    forall i | 0 <= i < |active| ensures outcomes[i].result.channel == active[i].name {
      var sends := Sends(active[i], title, content);
      var r := SingleResult(active[i].name, sends);
      assert sends(1) == active[i].send(title, content, 1) && sends(2) == active[i].send(title, content, 2);
    }
  }

  /**
   * `send_notification` with the deadline handled: the three short-circuits, then the
   * collection over the active notifiers with the hitokoto suffix added; `submitError` and
   * `order` are what the pool did.
   */
  function SendNotificationIntended(
    c: Cache, title: string, content: string, ns: seq<Notifier>, fetched: Option<(string, string)>,
    submitError: seq<Option<string>>, order: seq<nat>): (s: Summary)
    requires |submitError| == |ActiveNotifiers(ns)| && ValidOrder(submitError, order)
    ensures content == "" ==> s == Summary(0, [], [], [EmptyContentError])
    ensures content != "" && ShouldSkipPush(c, title) ==> s == Summary(0, [], [], [SkippedTitleError])
    ensures content != "" && !ShouldSkipPush(c, title) && (forall i :: 0 <= i < |ns| ==> !ns[i].configured) ==>
      s == Summary(0, [], [], [NoConfiguredError])
    ensures content != "" && !ShouldSkipPush(c, title) && (exists i :: 0 <= i < |ns| && ns[i].configured) ==>
      s.total == |ActiveNotifiers(ns)| > 0 && |s.errors| == |s.failed| &&
      s == CollectSpec(Names(ActiveNotifiers(ns)), submitError, order,
        Outcomes(ActiveNotifiers(ns), title, AddHitokoto(c, content, fetched)))
  {
    if content == "" then Summary(0, [], [], [EmptyContentError])
    else if ShouldSkipPush(c, title) then Summary(0, [], [], [SkippedTitleError])
    else
      var active := ActiveNotifiers(ns);
      NoActiveIffNoneConfigured(ns);
      if active == [] then Summary(0, [], [], [NoConfiguredError])
      else
        var outcomes := Outcomes(active, title, AddHitokoto(c, content, fetched));
        ErrorsMatchFailures(Names(active), submitError, order, outcomes);
        CollectSpec(Names(active), submitError, order, outcomes)
  }

  /**
   * `send_notification` as written: `None` when the `TimeoutError` of `as_completed` escapes,
   * which happens exactly when a notifier is called and some task is still running at the
   * deadline; otherwise the summary is the one with the deadline handled.
   */
  function SendNotification(
    c: Cache, title: string, content: string, ns: seq<Notifier>, fetched: Option<(string, string)>,
    submitError: seq<Option<string>>, order: seq<nat>): (s: Option<Summary>)
    requires |submitError| == |ActiveNotifiers(ns)| && ValidOrder(submitError, order)
    ensures s.None? <==>
      content != "" && !ShouldSkipPush(c, title) && ActiveNotifiers(ns) != [] && !AllCompleted(submitError, order)
    ensures s.Some? ==> s.value == SendNotificationIntended(c, title, content, ns, fetched, submitError, order)
  {
    if content == "" then Some(Summary(0, [], [], [EmptyContentError]))
    else if ShouldSkipPush(c, title) then Some(Summary(0, [], [], [SkippedTitleError]))
    else
      var active := ActiveNotifiers(ns);
      NoActiveIffNoneConfigured(ns);
      if active == [] then Some(Summary(0, [], [], [NoConfiguredError]))
      else CollectAsWritten(Names(active), submitError, order, Outcomes(active, title, AddHitokoto(c, content, fetched)))
  }

  /**
   * With the deadline handled, distinct channel names and notifiers that report their own
   * channel, every active channel ends up listed once.
   */
  lemma EveryActiveChannelListed(
    c: Cache, title: string, content: string, ns: seq<Notifier>, fetched: Option<(string, string)>,
    submitError: seq<Option<string>>, order: seq<nat>)
    requires |submitError| == |ActiveNotifiers(ns)| && ValidOrder(submitError, order)
    requires content != "" && !ShouldSkipPush(c, title) && ActiveNotifiers(ns) != []
    requires Distinct(Names(ActiveNotifiers(ns)))
    requires forall i, t, b, k :: 0 <= i < |ns| && ns[i].send(t, b, k).Returned? ==> ns[i].send(t, b, k).value.channel == ns[i].name
    ensures var s := SendNotificationIntended(c, title, content, ns, fetched, submitError, order);
      |s.successful| + |s.failed| == s.total
  {
    var active := ActiveNotifiers(ns);
    NoActiveIffNoneConfigured(ns);
    var body := AddHitokoto(c, content, fetched);
    forall i, k | 0 <= i < |active| && active[i].send(title, body, k).Returned?
      ensures active[i].send(title, body, k).value.channel == active[i].name
    {
      FilterMembership(ns, IsActive, active[i]);
      var j :| 0 <= j < |ns| && ns[j] == active[i];
    }
    OutcomesNamed(active, title, body);
    EveryChannelAccounted(Names(active), submitError, order, Outcomes(active, title, body));
  }

  /**
   * As written, a call that reaches the notifiers returns its summary exactly when every
   * submitted task completes in time, and then, with distinct channel names, every active
   * channel is listed once.
   */
  lemma SummaryOnlyWhenAllComplete(
    c: Cache, title: string, content: string, ns: seq<Notifier>, fetched: Option<(string, string)>,
    submitError: seq<Option<string>>, order: seq<nat>)
    requires |submitError| == |ActiveNotifiers(ns)| && ValidOrder(submitError, order)
    requires content != "" && !ShouldSkipPush(c, title) && ActiveNotifiers(ns) != []
    requires Distinct(Names(ActiveNotifiers(ns)))
    requires forall i, t, b, k :: 0 <= i < |ns| && ns[i].send(t, b, k).Returned? ==> ns[i].send(t, b, k).value.channel == ns[i].name
    ensures var s := SendNotification(c, title, content, ns, fetched, submitError, order);
      (s.Some? <==> AllCompleted(submitError, order)) &&
      (s.Some? ==> |s.value.successful| + |s.value.failed| == s.value.total == |ActiveNotifiers(ns)|)
  {
    EveryActiveChannelListed(c, title, content, ns, fetched, submitError, order);
  }
}
