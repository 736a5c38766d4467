/** The result record every notifier returns, the base class's result helpers, and the HTTP reply a notifier sees. */
module NotifierBase {
  import opened Wrappers
  import opened JsonValue

  /** `NotificationResult`: the outcome of one channel's send. */
  datatype NotificationResult = NotificationResult(
    success: bool, channel: string, message: string, error: Option<string> := None)

  const DefaultSuccessMessage: string := "发送成功"
  const DefaultErrorMessage: string := "发送失败"

  /** `_create_success_result`: a success for the notifier's own channel, with no error. */
  function CreateSuccessResult(channel: string, message: string := DefaultSuccessMessage): (r: NotificationResult)
    ensures r.success && r.error.None?
    ensures r.channel == channel && r.message == message
  {
    NotificationResult(true, channel, message)
  }

  /** `_create_error_result`: a failure for the notifier's own channel carrying the error text. */
  function CreateErrorResult(channel: string, error: Option<string>, message: string := DefaultErrorMessage): (r: NotificationResult)
    ensures !r.success && r.error == error
    ensures r.channel == channel && r.message == message
  {
    NotificationResult(false, channel, message, error)
  }

  /**
   * What a notifier's HTTP call came back with: a decoded JSON body, a
   * `requests.exceptions.RequestException` (connection, timeout, undecodable body), or any
   * other exception, each with `str(e)`.
   */
  datatype Reply = Body(json: Json) | RequestFailed(reason: string) | Crashed(reason: string)

  /**
   * The shared `except` clauses of the HTTP notifiers, and the `AttributeError` that a body
   * which is not an object raises at its first `.get`.
   */
  function FailureResult(channel: string, reply: Reply, failMessage: string): (r: NotificationResult)
    requires !(reply.Body? && reply.json.JObj?)
    ensures !r.success && r.channel == channel && r.message == failMessage
    ensures reply.RequestFailed? ==> r.error == Some("网络请求失败: " + reply.reason)
    ensures reply.Crashed? ==> r.error == Some("发送异常: " + reply.reason)
    ensures reply.Body? ==> r.error == Some("发送异常: " + NoAttribute(reply.json, "get"))
  {
    match reply
    case RequestFailed(reason) => CreateErrorResult(channel, Some("网络请求失败: " + reason), failMessage)
    case Crashed(reason) => CreateErrorResult(channel, Some("发送异常: " + reason), failMessage)
    case Body(v) => CreateErrorResult(channel, Some("发送异常: " + NoAttribute(v, "get")), failMessage)
  }
}
