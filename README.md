# notification-service in Dafny

A model of the core of a small Python service. The service takes a GitHub
`repository_dispatch` event and pushes its title and content to every
notification channel configured through environment variables: Bark, Server酱,
Telegram, WeCom and others. The model covers five parts:

- **ConfigManager** (`config_manager.dfy`) builds the settings cache from the
  environment. It also covers the per-service "is it configured" table, the
  notifier configuration blocks, value masking, format validation of a few keys,
  and the per-channel enable switches.
- **RetryHandler** (`retry_handler.dfy`) covers the exception class tree, the
  retry configuration with its defaults and presets, the backoff delay with
  jitter, and the attempt loop of `execute_with_retry`.
  - `ExecuteWithRetry` is the loop as a method.
  - The method is proved equal to the function `Retry`, which the other files
    reason with.
- **The notifiers** are `NotifierBase`, `ServerChan`, `Bark`, `Telegram` and
  `WeCom`. Each models what the notifier sends and how it reads the reply into a
  `NotificationResult`. The HTTP reply is a parameter: a JSON body, a request
  exception or any other exception.
- **The dispatcher** is `NotificationHandler` (`notification_handler.dfy`) and
  `Aggregation` (`aggregation.dfy`). It covers:
  - the three short-circuits of `send_notification`;
  - the active-notifier filter, the skip list and the hitokoto suffix;
  - the single send, with its own retry policy and the reclassification of
    failed results as retryable exceptions;
  - the friendly error text;
  - the collection of results across channels, including tasks still pending
    at the deadline.
- **Events** (`events.dfy`) is the structural check `main` applies to an event
  before anything is sent.

What Python does that Dafny does not is written out explicitly:

- `os.environ.get(k) or None`: an empty value counts as absent.
- `False == 0`, and truthiness of decoded JSON values.
- `re.match` with `$`.
- `str.split` on one character, `str.replace`, `str.rstrip`.
- `random.uniform(-j, j)` is written as `-j + 2j·r` with `r` in [0, 1].
- `raise None` after a loop that never ran.
- A negative argument to `time.sleep`.

Whatever the code cannot know is a parameter of the model:

- the outcome of each call of a notifier's `send`;
- the jitter drawn before each sleep;
- which tasks the thread pool refused;
- the order in which tasks complete before the deadline;
- the hitokoto that was fetched.

Helpers shared by several modules:

- `Wrappers` holds `Option` and `Result`.
- `Seqs` holds filters and counting.
- `Text` holds string operations, including ASCII case mapping, split and join.
- `JsonValue` holds decoded JSON and `dict.get`.

## Model

| member | source | states |
|---|---|---|
| `ConfigManager.GetConfig` | config_manager.py:101-116 | a setting is found exactly when the cache holds the key, and then it is the cached value; any other key gives the default `None` |
| `ConfigManager.LoadConfig` | config_manager.py:34-99 | only the listed string keys are stored, each present exactly when its environment value is non-empty and then equal to it; `GOTIFY_PRIORITY` is carried through; `HITOKOTO` is on exactly when its value lower-cases to "true" |
| `ConfigManager.LoadedSetMeansPresent` | config_manager.py:39-98 | because of `or None`, a loaded string setting is truthy exactly when it is present |
| `ConfigManager.TuningKeysNeverLoaded` | config_manager.py:37-99 | none of the five tuning keys the dispatcher reads is ever in the loaded cache, so their defaults always apply |
| `ConfigManager.IsConfigured` | config_manager.py:118-154 | a service missing from the table is never configured; a listed one is configured exactly when every required setting is truthy, so one with no requirements always is |
| `ConfigManager.AllSetMeansEvery` | config_manager.py:154 | the `all(...)` over the required keys holds exactly when each key is set |
| `ConfigManager.ConsoleAlwaysConfigured` | config_manager.py:128-152 | `console` is configured whatever is set; `dingding` is not in the table and so is never configured |
| `ConfigManager.GetNotifierConfigs` | config_manager.py:156-268 | a service gets a block exactly when it is one of the fourteen tested and it is configured, and the block holds its settings; no `dingding` block ever appears, and no `console` block |
| `ConfigManager.MaskSensitiveValue` | config_manager.py:270-284 | the length is kept; a value of at most six characters becomes all stars; a longer one keeps its first and last three characters, with stars between |
| `ConfigManager.RegexAcceptsTrailingNewline` | config_manager.py:299-303 | as written, `^[a-zA-Z0-9]+$` under `re.match` accepts "abc\n", which is not made of letters and digits only |
| `ConfigManager.KeyFormatOk` | config_manager.py:299-303 | the intended full match: an accepted key is non-empty and has no newline |
| `ConfigManager.ValidateConfig` | config_manager.py:286-317 | as written, with `re.match` and `$` as the key test. Only the four setting names appear as error keys. Each error is present exactly when its setting is set and malformed: a `PUSH_KEY` neither starting with `SCT` nor matched, an unmatched `SCKEY`, a `QYWX_AM` without 4 or 5 comma-separated parts, or an `SMTP_SSL` that is not true or false in any case. Each error has its fixed message |
| `ConfigManager.ValidateConfigIntended` | config_manager.py:286-317 | the same checks with the intended full-match key test: a key with a trailing newline is reported |
| `ConfigManager.RegexDiffersOnlyByNewline` | config_manager.py:299-303 | every key the intended test accepts is matched, and a matched key it rejects is letters and digits followed by one newline |
| `ConfigManager.IsChannelEnabled` | config_manager.py:319-341 | an `ENABLE_<CHANNEL>` switch in true/1/yes/on enables the channel and one in false/0/no/off disables it, ignoring case; any other value defers to the file's `enabled`, which is false when missing |
| `ConfigManager.GetEnabledChannels` | config_manager.py:343-357 | the file's channels that are both enabled and configured, in file order; a channel is listed exactly when it is in the file and passes both tests |
| `RetryHandler.Parent` | retry_handler.py:18-30 | every class except `Exception` has a direct base one level nearer the root, so the class tree is rooted at `Exception` |
| `RetryHandler.IsSubclass` | retry_handler.py:137 | the subclass test is reflexive, only looks upward, and every class is an `Exception` |
| `RetryHandler.NewRetryConfig` | retry_handler.py:43-59 | `__post_init__` replaces only a missing exception list (not an empty one), with the five defaults; every other field is kept |
| `RetryHandler.HandlerConfig` | retry_handler.py:72 | a given configuration is used as it is; without one, three attempts and the default exception list |
| `RetryHandler.DefaultRetriesItsClasses` | retry_handler.py:51-137 | characterises `IsRetryableException`, the model of `_is_retryable_exception` (an instance of some listed class), under the default list: it retries exactly the instances of `RetryableError`, `ConnectionError` and `TimeoutError` (its `NetworkError` and `TemporaryError` entries add nothing) |
| `RetryHandler.NetworkAndTemporaryAreRetryable` | retry_handler.py:18-30 | every subclass of `NetworkError` or `TemporaryError` is a `RetryableError` |
| `RetryHandler.DefaultDoesNotRetryOthers` | retry_handler.py:137 | a plain `OSError`, `TypeError`, `ValueError` or `Exception` is not retried under the default list |
| `RetryHandler.PresetsDropClasses` | retry_handler.py:189-207 | the network preset retries `NetworkError` but not `TemporaryError`; the notification preset retries `TemporaryError` but not `ConnectionError` |
| `RetryHandler.ExponentialStep` | retry_handler.py:153-154 | under exponential backoff each attempt's delay is the multiplier times the previous one |
| `RetryHandler.LinearStep` | retry_handler.py:151-152 | under linear backoff each attempt's delay is the previous one plus the base delay |
| `RetryHandler.RawDelayMonotone` | retry_handler.py:149-156 | about `RawDelay`, the model of the strategy branch (fixed, linear, exponential): with a non-negative base and a multiplier of at least one, the strategy's delay is non-negative and never shrinks from one attempt to the next |
| `RetryHandler.Jitter` | retry_handler.py:162-165 | the jittered delay is never negative, lies within ten percent of a non-negative delay, is zero for a non-positive one, and equals it at the midpoint draw |
| `RetryHandler.CalculateDelay` | retry_handler.py:139-167 | without jitter the delay is the smaller of the strategy's delay and `max_delay`. With jitter it is non-negative and at most 1.1 × `max_delay`, within ten percent of the clamped delay, and equal to it at the midpoint draw |
| `RetryHandler.SleepFailsAnyNoise` | retry_handler.py:120-122 | whether `time.sleep` rejects the next delay as negative does not depend on the jitter drawn |
| `RetryHandler.RetryFrom` | retry_handler.py:92-122 | every call before the last raised a retried exception and slept without error. The last call's return is the result. A raise that is not retried, or one on the final attempt, is re-raised. Any other raise stops because the sleep failed, with the `ValueError` of `time.sleep` |
| `RetryHandler.Retry` | retry_handler.py:90-125 | with fewer than one attempt nothing is called and `raise None` gives a `TypeError`; otherwise between one and `max_attempts` calls are made |
| `RetryHandler.RetryStopsAtFirstStop` | retry_handler.py:92-117 | the loop makes exactly as many calls as it takes to reach the first call that returns, raises something not retried, is the last, or fails to sleep; a return or a non-retried raise there is the result |
| `RetryHandler.SucceedsOnFirstCall` | retry_handler.py:96-102 | a first call that returns is the result after one call, whatever later calls would do |
| `RetryHandler.ExhaustedRaisesLast` | retry_handler.py:115-125 | when every call raises a retried exception (with jitter, so sleeping never fails), all attempts are made and the last exception escapes |
| `RetryHandler.SleepTrace` | retry_handler.py:120-122 | the k-th sleep is `_calculate_delay(k)` with the k-th draw |
| `RetryHandler.ExecuteWithRetry` | retry_handler.py:75-125 | the loop's outcome and number of calls are those of `Retry`; it sleeps after each call but the last, by the calculated delays, none of them negative |
| `Aggregation.HelperResultsCollected` | notifiers/base.py:68-83 | a result from `_create_success_result` lists its channel as successful, one from `_create_error_result` lists it as failed with the line `channel: error or 未知错误`: the collection reads each result by the helper that built it |
| `NotifierBase.FailureResult` | notifiers/serverchan.py:63-70 | a request exception gives "网络请求失败: …" and any other exception "发送异常: …". A decoded body that is not an object fails at its first `.get` with the `AttributeError` text. Each is a failure with the notifier's failure message |
| `ServerChan.IsConfiguredAgrees` | notifiers/serverchan.py:15-21 | the notifier is configured exactly when the manager reports `serverchan` or `serverchan_legacy` |
| `ServerChan.Key` | notifiers/serverchan.py:33 | `PUSH_KEY` wins whenever it is set, otherwise `SCKEY`; the chosen key is set exactly when the notifier is configured |
| `ServerChan.Url` | notifiers/serverchan.py:36-43 | a key starting with `SCT` is posted to the Turbo host, any other to the legacy host |
| `ServerChan.Desp` | notifiers/serverchan.py:48 | doubling the newlines lengthens the content by its number of newlines |
| `ServerChan.DespRoundTrip` | notifiers/serverchan.py:48 | the content is recovered from the Markdown body by halving each pair of newlines |
| `ServerChan.Request` | notifiers/serverchan.py:46-49 | the form has exactly `text` (the title) and `desp`, from which the content is recovered by halving the newline pairs, and goes to the URL of the key's API version |
| `ServerChan.ExtractErrorMessage` | notifiers/serverchan.py:82-91 | the first truthy of `message`, `errmsg`, `error`, as `str()`, otherwise "未知错误" |
| `ServerChan.Send` | notifiers/serverchan.py:23-80 | success exactly when configured and the body satisfies `IsSuccessResponse`, the model of `_is_success_response`: `code` or `errno` equal to 0 (`false` counts). The success and failure messages name the API version. An unconfigured notifier fails with its configuration error, and any failure carries an error |
| `ServerChan.ValidateConfig` | notifiers/serverchan.py:93-118 | valid exactly when a key is set and it has at least 20 characters for a Turbo key or at least 10 for a legacy one. No key gives "PUSH_KEY 和 SCKEY 都未设置", a short key "新版 Server酱密钥格式不正确" or "旧版 Server酱密钥格式不正确" by its version, and a valid one "配置验证通过" |
| `Bark.IsConfiguredAgrees` | notifiers/bark.py:17-19 | the notifier is configured exactly when the manager reports `bark` |
| `Bark.BuildParams` | notifiers/bark.py:62-77 | the loop yields the `name=value&` pieces of the set options in order. The text is empty exactly when no option is set, and otherwise ends with `&` |
| `Bark.ParamsEmpty` | notifiers/bark.py:71-77 | the query text is empty exactly when none of the options is set |
| `Bark.ParamsEndWithAmp` | notifiers/bark.py:75 | a non-empty query text ends with `&` |
| `Bark.StripRemovesLastSeparator` | notifiers/bark.py:38-40 | when no value ends with `&`, `rstrip("&")` removes exactly the final separator |
| `Bark.UrlBase` | notifiers/bark.py:31-35 | a `BARK_PUSH` starting with "http" is used as the server URL; anything else is a device key on `api.day.app` |
| `Bark.Url` | notifiers/bark.py:31-40 | title and content are quoted into the path; the query is added exactly when some option is set, without its trailing `&` |
| `Bark.Send` | notifiers/bark.py:21-60 | success exactly when configured and the body has `code` 200. An unconfigured notifier fails with "BARK_PUSH 未设置". A failing body reports its `message`, or "未知错误" when there is none |
| `Telegram.IsConfiguredAgrees` | notifiers/telegram.py:15-20 | the notifier is configured exactly when the manager reports `telegram` |
| `Telegram.Url` | notifiers/telegram.py:35-38 | a set `TG_API_HOST` replaces the official host in the `sendMessage` URL |
| `Telegram.DefaultHostUsed` | notifiers/telegram.py:35-38 | an unset or empty `TG_API_HOST` gives the URL on `api.telegram.org` |
| `Telegram.MessageText` | notifiers/telegram.py:44 | the title, a blank line, then the content; cutting the text at its first blank line gives title and content back whenever the title is one line |
| `Telegram.Payload` | notifiers/telegram.py:42-46 | the query has exactly `chat_id` (the user id), `text` and `disable_web_page_preview` = "true", and the text reads back as title and content for a one-line title |
| `Telegram.GetProxies` | notifiers/telegram.py:77-91 | no proxy unless host and port are both set; otherwise the same URL for http and https, with the auth prefixed only when set and the host has no `@` |
| `Telegram.ProxyKeepsCredentialedHost` | notifiers/telegram.py:87-88 | a host that already holds `@` is used unchanged |
| `Telegram.Send` | notifiers/telegram.py:22-75 | success exactly when configured and the body's `ok` is truthy. A failing body reports its `description`, or "未知错误" when there is none |
| `WeCom.ParseQywxAm` | notifiers/wecom.py:31-43 | fails with the format error exactly when there are not 3 or 4 commas; the fields come from the comma-free parts by position, and writing them back gives the input when a media id is present |
| `WeCom.ParseOfParts` | notifiers/wecom.py:32-43 | joining comma-free fields with commas and parsing them gives the same fields back |
| `WeCom.TrailingCommaMeansText` | notifiers/wecom.py:43-53 | an empty fifth part is the same as none: a text message is sent |
| `WeCom.IsConfiguredAgrees` | notifiers/wecom.py:17-19 | the application and the bot are configured exactly when the manager reports `wecom_app` and `wecom_bot` |
| `WeCom.MpNewsContent` | notifiers/wecom.py:178 | the body is the message's lines joined by `<br/>`: each newline became `<br/>` and the rest is kept, so no newline is left and the length grows by four per newline |
| `WeCom.AppMessage` | notifiers/wecom.py:143-187 | addressed to the configured user and agent. It is a text message exactly when the media id is empty, and its text reads back as title and content for a one-line title; otherwise it holds exactly the one article `Article(title, content, media_id)` |
| `WeCom.Article` | notifiers/wecom.py:173-180 | the article has exactly its six fields; the digest is the raw message and the content is the digest's lines joined by `<br/>`, with no newline left |
| `WeCom.AppSend` | notifiers/wecom.py:21-65 | success exactly when configured, well-formed and the client answers "ok". Missing and malformed settings fail with their configuration errors. A client exception gives "发送异常: …", and any other answer is reported as the error |
| `WeCom.MalformedAmSkipsClient` | notifiers/wecom.py:34-37 | a malformed `QYWX_AM` fails before any client call, whatever the client would answer |
| `WeCom.BotMessage` | notifiers/wecom.py:93-96 | a text message with exactly `msgtype` and `text`, the latter holding only `content`, which is the title, a blank line and the content, read back as title and content for a one-line title |
| `WeCom.BotSend` | notifiers/wecom.py:78-121 | success exactly when configured and `errcode` is 0. An unconfigured bot fails with "QYWX_KEY 未设置". A failing body reports its `errmsg`, or "未知错误" |
| `Events.FirstMissing` | main.py:105-111 | no field is reported exactly when all required fields are present; a reported one is required and absent |
| `Events.ValidateEventData` | main.py:81-118 | the event passes exactly when it is an object whose `client_payload` (an empty object when absent) is an object holding `title` and `content` |
| `Events.AbsentPayloadRejected` | main.py:99-109 | an event without `client_payload` is rejected |
| `Events.EmptyFieldsPass` | main.py:110-111 | empty title and content pass: they are only warned about |
| `Events.SourceIrrelevant` | main.py:114-118 | the `source` field never changes the verdict |
| `Aggregation.SubmittedIdx` | notification_handler.py:216-219 | the tasks handed to the pool, in submission order |
| `Aggregation.ErrorText` | notification_handler.py:242 | `result.error or "未知错误"`: a non-empty error is kept, and an absent or empty one becomes "未知错误" |
| `Aggregation.NotIn` | notification_handler.py:254 | the tasks not done, each one submitted and not completed |
| `Aggregation.CollectSpec` | notification_handler.py:198-283 | with the deadline handled, the summary always counts every active notifier as the total; with none, it is the "没有可用的通知器" summary |
| `Aggregation.Collect` | notification_handler.py:198-283 | submit, collect in completion order, then record the pending tasks: equal to `CollectSpec` |
| `Aggregation.SubmitAll` | notification_handler.py:215-226 | the submit loop returns the submitted tasks in order and a failure with "提交发送任务失败: …" for each refused one |
| `Aggregation.TakeCompleted` | notification_handler.py:229-251 | the loop over completed tasks adds each result, or the exception `result()` raised, in completion order |
| `Aggregation.Remaining` | notification_handler.py:254 | `remaining_futures` is the submitted tasks not yet completed, in submission order |
| `Aggregation.RecordPending` | notification_handler.py:255-263 | each pending channel not already failed is added with "发送超时" |
| `Aggregation.SubmitPhaseCounts` | notification_handler.py:216-226 | submitting lists no success and one failure and one error per refused task |
| `Aggregation.CompletePhaseCounts` | notification_handler.py:230-251 | each completed task adds exactly one entry to the two lists, and one error with each failure |
| `Aggregation.PendingPhaseFacts` | notification_handler.py:255-263 | the pending pass keeps the successes, only appends failures with one error each, and leaves every pending channel listed as failed |
| `Aggregation.ErrorsMatchFailures` | notification_handler.py:216-263 | in the summary every failure has exactly one error line; the pending pass removes nothing and every pending channel ends up failed |
| `Aggregation.SubmittedIdxMembership` | notification_handler.py:216-219 | a task is listed exactly when it was submitted |
| `Aggregation.SubmittedIdxDistinct` | notification_handler.py:219 | no task is listed twice |
| `Aggregation.FailedSubmittedCount` | notification_handler.py:216-226 | every task was either submitted or refused |
| `Aggregation.NotInMembership` | notification_handler.py:254 | a task is pending exactly when it was submitted and has not completed |
| `Aggregation.NotInDistinct` | notification_handler.py:254 | no pending task is listed twice |
| `Aggregation.CompletedPlusPending` | notification_handler.py:230-254 | the submitted tasks split into the completed and the pending ones |
| `Aggregation.AllCompletedCount` | notification_handler.py:229-268 | when every submitted task completes in time nothing is pending, and successes plus failures equal the number of notifiers |
| `Aggregation.SubmitPhaseMembership` | notification_handler.py:220-225 | a channel is failed after submission exactly when its task was refused |
| `Aggregation.CompletePhaseMembership` | notification_handler.py:235-251 | a completed channel is listed as successful exactly when its result succeeded, and as failed otherwise |
| `Aggregation.PendingPhaseMembership` | notification_handler.py:257-262 | after the pending pass a channel is failed exactly when it already was or its task is pending |
| `Aggregation.PendingPhaseFreshCount` | notification_handler.py:257-262 | with fresh channel names the pending pass adds one failure per pending task |
| `Aggregation.ChannelListedOnce` | notification_handler.py:216-283 | with distinct channel names, a channel is successful exactly when its task was submitted, completed in time and succeeded, and failed in every other case |
| `Aggregation.EveryChannelAccounted` | notification_handler.py:266-283 | with distinct names, successes plus failures equal the total, timeouts included |
| `Aggregation.CollectAsWritten` | notification_handler.py:230 | as written, no summary comes back exactly when some submitted task is still running at the deadline; otherwise the summary is the corrected one |
| `Aggregation.TimeoutExampleAsWritten` | notification_handler.py:230 | one Bark task still running at the deadline: as written, the collection yields no summary |
| `Aggregation.TimeoutExampleHandled` | notification_handler.py:254-263 | the same run with the deadline handled reports Bark as failed with "发送超时" |
| `NotificationHandler.RetryableErrorIgnoresCase` | notification_handler.py:383-403 | characterises `IsRetryableError`, the model of `_is_retryable_error` (a non-empty text whose lower-cased form holds a keyword): the test ignores case, and an absent or empty error is never retryable |
| `Text.ContainsIffOccurs` | notification_handler.py:403 | `Contains`, the model of Python's `keyword in text`, holds exactly when the keyword occurs at some index of the text |
| `NotificationHandler.NetworkErrorRetried` | notification_handler.py:300-308 | the single-send policy always retries a `NetworkError` |
| `NotificationHandler.Reraise` | notification_handler.py:371-381 | a `ConnectionError` or `TimeoutError` becomes the `NetworkError` "网络连接异常: …"; any other exception whose lower-cased text has a wrap keyword becomes "网络相关异常: …"; the rest are raised unchanged. It is retried afterwards exactly when it was retried before or its text has a wrap keyword |
| `NotificationHandler.RetriedUnderSingleSend` | notification_handler.py:300-308 | the single-send policy retries exactly the instances of `NetworkError`, `TemporaryError`, `ConnectionError` and `TimeoutError` |
| `NotificationHandler.ExecuteSend` | notification_handler.py:359-381 | a success is returned. A failure with a retryable error is raised exactly when its text names a network or temporary problem, and then as a retried exception. A raised exception stays raised, retried exactly as `Reraise` says |
| `NotificationHandler.StatusOnlyFailureNotRetried` | notification_handler.py:363-369 | a failure retryable only through a status code or another keyword is returned after one send, not retried |
| `NotificationHandler.FormatErrorMessage` | notification_handler.py:415-428 | by the first class that matches, "网络错误: ", "临时错误: ", "连接错误: " or "超时错误: " precedes the exception's message; a class outside the four gets its class name; the text always ends with the message |
| `NotificationHandler.SingleResult` | notification_handler.py:297-341 | never raises. A first attempt that returns is the result; one that raises something not retried gives the "发送失败" failure for the channel with the formatted exception. After a retried raise, the second attempt's result, or the "发送失败" failure with its formatted exception. A success is what a send returned |
| `NotificationHandler.SingleSendRetry` | notification_handler.py:300-318 | under the single-send policy the loop stops after the first attempt unless it raised a retried exception, and then the second attempt is final |
| `NotificationHandler.SendSingleNotification` | notification_handler.py:285-341 | run through the retry loop, the result is `SingleResult` whatever jitter is drawn, after one or two sends |
| `NotificationHandler.KeywordAtEnd` | notification_handler.py:364 | a lower-case keyword at the end of a text is found by the case-insensitive test |
| `NotificationHandler.TimeoutFailureReclassified` | notification_handler.py:363-378 | a failure text ending in "timeout" is raised as a `NetworkError`, which the `except Exception` wraps a second time |
| `NotificationHandler.TimeoutFailureRetriedOnce` | notification_handler.py:297-381 | a channel that keeps failing with such a text is sent to twice and reports the twice-wrapped exception |
| `NotificationHandler.ActiveNotifiers` | notification_handler.py:163 | only configured notifiers are kept, and never more than there are |
| `NotificationHandler.ActiveExactlyConfigured` | notification_handler.py:163 | a notifier is active exactly when it is registered and configured; the filter keeps the registration order |
| `NotificationHandler.NoActiveIffNoneConfigured` | notification_handler.py:145-148 | there is no active notifier exactly when none is configured |
| `NotificationHandler.SkippedTitleIsOneLine` | notification_handler.py:165-171 | characterises `ShouldSkipPush`, the model of `_should_skip_push` (the title is one of the lines of a non-empty `SKIP_PUSH_TITLE`): only a title without a line break, and only under a set skip list, is skipped |
| `NotificationHandler.SkipListOfTitles` | notification_handler.py:165-171 | for `ShouldSkipPush`: a skip list written one title per line skips exactly those titles |
| `NotificationHandler.AddHitokoto` | notification_handler.py:173-184 | the content is unchanged unless hitokoto is on and the fetch succeeded; then a blank line and "hitokoto    ----from" follow it |
| `NotificationHandler.WorkerCount` | notification_handler.py:207-208 | one worker per channel, at most ten |
| `NotificationHandler.OutcomesNamed` | notification_handler.py:297-341 | with notifiers whose results name their own channel, every task's single-send result names its notifier's channel, exceptions included |
| `NotificationHandler.SendNotification` | notification_handler.py:123-154 | as written: no summary (the `TimeoutError` of `as_completed` escapes) exactly when content is non-empty, the title is not skipped, some notifier is active and a submitted task is still running at the deadline; any summary returned is the one of `SendNotificationIntended` |
| `NotificationHandler.SendNotificationIntended` | notification_handler.py:123-154 | with the deadline handled: empty content, a skipped title and no configured notifier each give their one-error summary, in that order. Otherwise the total is the number of active notifiers, there is one error per failure, and the summary is the collection over the active notifiers with the hitokoto suffix |
| `NotificationHandler.EveryActiveChannelListed` | notification_handler.py:266-283 | with the deadline handled, distinct names and notifiers that report their own channel, successes plus failures equal the total |
| `NotificationHandler.SummaryOnlyWhenAllComplete` | notification_handler.py:229-283 | as written, a call that reaches the notifiers returns a summary exactly when every submitted task completes in time, and then every active channel is listed once |

## Left out

- Threads and time are not modelled. The thread pool, `as_completed`'s wait and `future.cancel()` are left out. What the pool did is a parameter: which submissions raised, and which tasks completed in which order before the deadline. `NOTIFICATION_TIMEOUT` and the extra ten seconds only fix that deadline.
- `time.sleep` and `random.uniform` are left out. A sleep is recorded as its delay, and the jitter draw is a parameter in [0, 1].
- Seconds are reals: floating-point rounding in the delay arithmetic is not modelled.
- HTTP calls, `urllib.parse.quote_plus`, JSON decoding and the hitokoto fetch are parameters: the decoded reply, a function standing for the quoting, and the fetched pair.
  - JSON numbers are integers.
  - `str()` of a list or an object inside a reply is its type name only (`JsonValue.PyStr`).
- The other notifiers are not part of this model. These are DingTalk, Feishu, PushDeer, PushPlus, Qmsg, Gotify, iGot, SMTP, Console and `base_notifier.py`. Their behaviour enters only as a notifier's `configured` flag and `send` outcomes.
- `_initialize_notifiers` and the `CONSOLE` setting are not modelled: the registered notifiers are an input.
- `process_github_event`, `main`, `process_attachments`, `log_event_details` and the scripts are not modelled. The same holds for `get_channel_info`, `get_all_channels_status` and all logging, including `completed_count`.
- `_load_notification_config` reads a JSON file, so it is not modelled. Its contents are the input `ChannelsFile`: the channel order and the explicit `enabled` values.
- `retry_on_failure` only wraps `execute_with_retry` in a decorator. It adds no logic and is not modelled.
- The `int()` and `float()` conversions of the tuning keys are not modelled: the loader never stores those keys, so the literal defaults always apply. The `int()` of `GOTIFY_PRIORITY` is an input, so an unparsable value, which makes the loader raise, is not modelled.
- The invalid-result-type branch of `_send_single_notification` (notification_handler.py:320-327) is left out. Every modelled notifier returns a `NotificationResult`.
- A reply whose error field is not a string, such as a JSON number as Bark's `message`, is not fully modelled. It is stored as its `str()` text. The `AttributeError` that `_is_retryable_error` would then raise on `.lower()` is not modelled.
- `Text.Lower` and `Text.Upper` map ASCII letters only. Python's full Unicode case mapping is not modelled; every keyword and constant compared here is ASCII or has no case.
- The model assumes Python 3.11 or later, where `concurrent.futures.TimeoutError` is the builtin `TimeoutError`, a subclass of `OSError`. Exceptions raised inside `requests` reach the dispatcher only as the texts the notifiers catch.

## Findings

| source | as written | input that shows it | evidently intended | confidence | as-written member | corrected member |
|---|---|---|---|---|---|---|
| notification_handler.py:230-263 | `as_completed(future_to_notifier, timeout=timeout + 10)` raises `TimeoutError` when a task is still running at the deadline. The error escapes the collection, so the pass over `remaining_futures` that records "发送超时" never finds a pending task, and no summary is returned | one active channel (Bark) whose send is still running when the deadline passes | the pending channels are recorded as failed with "发送超时" and the summary is returned | not executed | `Aggregation.CollectAsWritten`, `Aggregation.TimeoutExampleAsWritten`, `NotificationHandler.SendNotification` | `Aggregation.CollectSpec`, `Aggregation.TimeoutExampleHandled`, `NotificationHandler.SendNotificationIntended` |
| config_manager.py:299-303 | `re.match(r'^[a-zA-Z0-9]+$', key)` accepts a key with one trailing newline, because `$` also matches before a final "\n" | `SCKEY` = "abc\n" passes the format check | only keys made of ASCII letters and digits pass (`re.fullmatch`, or `\Z`) | not executed | `ConfigManager.RegexAcceptsTrailingNewline`, `ConfigManager.ValidateConfig` | `ConfigManager.KeyFormatOk`, `ConfigManager.ValidateConfigIntended` |

`NotificationHandler.SendNotification` and `ConfigManager.ValidateConfig` model the
code as written. `SendNotificationIntended` collects with the corrected
`Aggregation.CollectSpec`, and `ValidateConfigIntended` tests keys with `KeyFormatOk`.

The `dingding` lookup in `get_notifier_configs` (config_manager.py:176) is
modelled as written. The table of `is_configured` knows the service as
`dingtalk`, so no DingTalk block is ever produced; `GetNotifierConfigs` states this.
