/** The Telegram notifier: the API URL, the message text, the proxy settings, and reading the reply. */
module Telegram {
  import opened Wrappers
  import opened Text
  import opened JsonValue
  import opened NotifierBase
  import ConfigManager

  const Name: string := "Telegram"

  /** `is_configured`: both the bot token and the user id are set. */
  predicate IsConfigured(c: ConfigManager.Cache) {
    ConfigManager.IsSet(ConfigManager.GetConfig(c, "TG_BOT_TOKEN")) && ConfigManager.IsSet(ConfigManager.GetConfig(c, "TG_USER_ID"))
  }

  lemma IsConfiguredAgrees(c: ConfigManager.Cache)
    ensures IsConfigured(c) <==> ConfigManager.IsConfigured(c, "telegram")
  {
    var keys := ConfigManager.ServiceConfigs["telegram"];
    assert keys == ["TG_BOT_TOKEN", "TG_USER_ID"];
    assert keys[0] == "TG_BOT_TOKEN" && keys[1] == "TG_USER_ID";
  }

  /** The `sendMessage` URL: a set `TG_API_HOST` replaces `api.telegram.org`. */
  function Url(token: string, apiHost: Option<string>): (url: string)
    ensures ConfigManager.IsSet(apiHost) ==> url == "https://" + apiHost.value + "/bot" + token + "/sendMessage"
  {
    "https://" + (if ConfigManager.IsSet(apiHost) then apiHost.value else DefaultApiHost) + "/bot" + token + "/sendMessage"
  }

  const DefaultApiHost: string := "api.telegram.org"

  /** An unset or empty `TG_API_HOST` falls back to the official host. */
  lemma DefaultHostUsed(token: string)
    ensures Url(token, None) == Url(token, Some(DefaultApiHost))
    ensures Url(token, Some("")) == Url(token, Some(DefaultApiHost))
  {
  }

  /**
   * The message: title, a blank line, content. A reader that cuts it at the first blank line
   * gets the title and the content back whenever the title is one line.
   */
  function MessageText(title: string, content: string): (text: string)
    ensures |text| == |title| + 2 + |content|
    ensures text[..|title|] == title && text[|title| + 2..] == content
    ensures '\n' !in title ==> SplitAtBlankLine(text) == (title, content)
  {
    BlankLineRoundTrip(title, content);
    title + "\n\n" + content
  }

  /** The query parameters of the POST. */
  function Payload(userId: string, title: string, content: string): (p: map<string, string>)
    ensures p.Keys == {"chat_id", "text", "disable_web_page_preview"}
    ensures p["chat_id"] == userId && p["disable_web_page_preview"] == "true"
    ensures p["text"] == MessageText(title, content)
    ensures '\n' !in title ==> SplitAtBlankLine(p["text"]) == (title, content)
  {
    map["chat_id" := userId, "text" := MessageText(title, content), "disable_web_page_preview" := "true"]
  }

  /** `_get_proxies`: no proxy unless host and port are both set; `auth@` is prefixed when auth is set and the host has no `@`. */
  function GetProxies(c: ConfigManager.Cache): (proxies: Option<map<string, string>>)
    ensures proxies.None? <==>
      !(ConfigManager.IsSet(ConfigManager.GetConfig(c, "TG_PROXY_HOST")) && ConfigManager.IsSet(ConfigManager.GetConfig(c, "TG_PROXY_PORT")))
    ensures proxies.Some? ==> proxies.value.Keys == {"http", "https"} && proxies.value["http"] == proxies.value["https"]
    ensures proxies.Some? ==>
      var host := c.text["TG_PROXY_HOST"];
      var auth := ConfigManager.GetConfig(c, "TG_PROXY_AUTH");
      proxies.value["http"] ==
        "http://" + (if ConfigManager.IsSet(auth) && '@' !in host then auth.value + "@" + host else host) + ":" + c.text["TG_PROXY_PORT"]
  {
    var host := ConfigManager.GetConfig(c, "TG_PROXY_HOST");
    var port := ConfigManager.GetConfig(c, "TG_PROXY_PORT");
    var auth := ConfigManager.GetConfig(c, "TG_PROXY_AUTH");
    if !(ConfigManager.IsSet(host) && ConfigManager.IsSet(port)) then None
    else
      var h := if ConfigManager.IsSet(auth) && '@' !in host.value then auth.value + "@" + host.value else host.value;
      var proxyUrl := "http://" + h + ":" + port.value;
      Some(map["http" := proxyUrl, "https" := proxyUrl])
  }

  /** The proxy URL names the host with credentials at most once: a host that already has `@` is kept as it is. */
  lemma ProxyKeepsCredentialedHost(c: ConfigManager.Cache)
    requires GetProxies(c).Some?
    requires '@' in c.text["TG_PROXY_HOST"]
    ensures GetProxies(c).value["http"] == "http://" + c.text["TG_PROXY_HOST"] + ":" + c.text["TG_PROXY_PORT"]
  {
  }

  /** `send(title, content)` given what the POST came back with. */
  function Send(c: ConfigManager.Cache, reply: Reply): (r: NotificationResult)
    ensures r.channel == Name
    ensures r.success <==> IsConfigured(c) && reply.Body? && GetTruthy(reply.json, "ok")
    ensures r.success ==> r.error.None? && r.message == "Telegram 推送成功"
    ensures !IsConfigured(c) ==> r.error == Some("TG_BOT_TOKEN 或 TG_USER_ID 未设置") && r.message == "配置错误"
    ensures IsConfigured(c) && reply.Body? && reply.json.JObj? && !GetTruthy(reply.json, "ok") ==>
      r.message == "Telegram 推送失败" &&
      ("description" !in reply.json.fields ==> r.error == Some("未知错误")) &&
      ("description" in reply.json.fields ==> r.error == Display(reply.json.fields["description"]))
  {
    if !IsConfigured(c) then CreateErrorResult(Name, Some("TG_BOT_TOKEN 或 TG_USER_ID 未设置"), "配置错误")
    else if reply.Body? && reply.json.JObj? then
      if GetTruthy(reply.json, "ok") then CreateSuccessResult(Name, "Telegram 推送成功")
      else CreateErrorResult(Name, Display(GetOr(reply.json, "description", JStr("未知错误"))), "Telegram 推送失败")
    else
      FailureResult(Name, reply, "Telegram 推送失败")
  }
}
