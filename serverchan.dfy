/** The Server酱 notifier: key selection, the two API versions, the request, and reading the reply. */
module ServerChan {
  import opened Wrappers
  import opened Text
  import opened JsonValue
  import opened NotifierBase
  import ConfigManager

  const Name: string := "Server酱"

  /** `is_configured`: either key is set. */
  predicate IsConfigured(c: ConfigManager.Cache) {
    ConfigManager.IsSet(ConfigManager.GetConfig(c, "PUSH_KEY")) || ConfigManager.IsSet(ConfigManager.GetConfig(c, "SCKEY"))
  }

  /** The notifier counts as configured exactly when the manager reports either of its two table entries. */
  lemma IsConfiguredAgrees(c: ConfigManager.Cache)
    ensures IsConfigured(c) <==>
      ConfigManager.IsConfigured(c, "serverchan") || ConfigManager.IsConfigured(c, "serverchan_legacy")
  {
    assert ConfigManager.ServiceConfigs["serverchan"] == ["PUSH_KEY"];
    assert ConfigManager.ServiceConfigs["serverchan_legacy"] == ["SCKEY"];
  }

  /** `PUSH_KEY or SCKEY`: the new key wins whenever it is set. */
  function Key(c: ConfigManager.Cache): (k: Option<string>)
    ensures ConfigManager.IsSet(ConfigManager.GetConfig(c, "PUSH_KEY")) ==> k == ConfigManager.GetConfig(c, "PUSH_KEY")
    ensures !ConfigManager.IsSet(ConfigManager.GetConfig(c, "PUSH_KEY")) ==> k == ConfigManager.GetConfig(c, "SCKEY")
    ensures IsConfigured(c) <==> ConfigManager.IsSet(k)
  {
    var pushKey := ConfigManager.GetConfig(c, "PUSH_KEY");
    if ConfigManager.IsSet(pushKey) then pushKey else ConfigManager.GetConfig(c, "SCKEY")
  }

  /** A key starting with `SCT` addresses the Turbo API ("新版"), any other the legacy one ("旧版"). */
  predicate IsTurboKey(key: string) {
    StartsWith(key, "SCT")
  }

  function ApiVersion(key: string): string {
    if IsTurboKey(key) then "新版" else "旧版"
  }

  function Url(key: string): (url: string)
    ensures IsTurboKey(key) ==> url == "https://sctapi.ftqq.com/" + key + ".send"
    ensures !IsTurboKey(key) ==> url == "https://sc.ftqq.com/" + key + ".send"
  {
    (if IsTurboKey(key) then "https://sctapi.ftqq.com/" else "https://sc.ftqq.com/") + key + ".send"
  }

  /** The Markdown body: every newline doubled. */
  function Desp(content: string): (d: string)
    ensures |d| == |content| + Occurrences(content, '\n')
  {
    ReplaceLength(content, '\n', "\n\n");
    Replace(content, '\n', "\n\n")
  }

  /** Reads a Markdown body back: each pair of newlines becomes one. */
  function HalveNewlines(d: string): string {
    if d == [] then []
    else if |d| >= 2 && d[0] == '\n' && d[1] == '\n' then "\n" + HalveNewlines(d[2..])
    else [d[0]] + HalveNewlines(d[1..])
  }

  /** Doubling the newlines loses nothing: the content is recovered from the body. */
  lemma {:induction false} DespRoundTrip(content: string)
    ensures HalveNewlines(Desp(content)) == content
  {
    if content != [] {
      DespRoundTrip(content[1..]);
      var rest := Desp(content[1..]);
      if content[0] == '\n' {
        assert Desp(content) == "\n\n" + rest;
        assert ("\n\n" + rest)[2..] == rest;
      } else {
        assert Desp(content) == [content[0]] + rest;
        assert ([content[0]] + rest)[1..] == rest;
      }
      assert content == [content[0]] + content[1..];
    }
  }

  /** The form posted to the API. */
  datatype PostRequest = PostRequest(url: string, data: map<string, string>)

  /** The form posted to the key's URL: the title as it is, and a Markdown body the content is read back from. */
  function Request(key: string, title: string, content: string): (r: PostRequest)
    ensures r.data.Keys == {"text", "desp"} && r.data["text"] == title && r.data["desp"] == Desp(content)
    ensures HalveNewlines(r.data["desp"]) == content
    ensures r.url == Url(key)
  {
    DespRoundTrip(content);
    PostRequest(Url(key), map["text" := title, "desp" := Desp(content)])
  }

  /** `_is_success_response`: `code` or `errno` equals 0 (a `false` counts, as in Python). */
  predicate IsSuccessResponse(response: Json) {
    GetEquals(response, "code", 0) || GetEquals(response, "errno", 0)
  }

  /** `_extract_error_message`: the first truthy of `message`, `errmsg`, `error`, else "未知错误". */
  function ExtractErrorMessage(response: Json): (msg: string)
    ensures GetTruthy(response, "message") ==> msg == PyStr(response.fields["message"])
    ensures !GetTruthy(response, "message") && GetTruthy(response, "errmsg") ==> msg == PyStr(response.fields["errmsg"])
    ensures !GetTruthy(response, "message") && !GetTruthy(response, "errmsg") && GetTruthy(response, "error") ==>
      msg == PyStr(response.fields["error"])
    ensures !GetTruthy(response, "message") && !GetTruthy(response, "errmsg") && !GetTruthy(response, "error") ==>
      msg == "未知错误"
  {
    if GetTruthy(response, "message") then PyStr(response.fields["message"])
    else if GetTruthy(response, "errmsg") then PyStr(response.fields["errmsg"])
    else if GetTruthy(response, "error") then PyStr(response.fields["error"])
    else "未知错误"
  }

  /** `send(title, content)` given what the POST came back with. */
  function Send(c: ConfigManager.Cache, title: string, content: string, reply: Reply): (r: NotificationResult)
    ensures r.channel == Name
    ensures r.success <==> IsConfigured(c) && reply.Body? && IsSuccessResponse(reply.json)
    ensures r.success ==> r.error.None? && r.message == "Server酱(" + ApiVersion(Key(c).value) + ") 推送成功"
    ensures !r.success ==> r.error.Some?
    ensures !IsConfigured(c) ==> r.error == Some("PUSH_KEY 或 SCKEY 未设置") && r.message == "配置错误"
    ensures IsConfigured(c) && reply.Body? && reply.json.JObj? && !IsSuccessResponse(reply.json) ==>
      r.error == Some(ExtractErrorMessage(reply.json)) && r.message == "Server酱(" + ApiVersion(Key(c).value) + ") 推送失败"
  {
    if !IsConfigured(c) then CreateErrorResult(Name, Some("PUSH_KEY 或 SCKEY 未设置"), "配置错误")
    else
      var version := ApiVersion(Key(c).value);
      if reply.Body? && reply.json.JObj? then
        if IsSuccessResponse(reply.json) then CreateSuccessResult(Name, "Server酱(" + version + ") 推送成功")
        else CreateErrorResult(Name, Some(ExtractErrorMessage(reply.json)), "Server酱(" + version + ") 推送失败")
      else
        FailureResult(Name, reply, "Server酱推送失败")
  }

  /** `validate_config`: a Turbo key needs at least 20 characters, a legacy key at least 10. */
  function ValidateConfig(c: ConfigManager.Cache): (res: (bool, string))
    ensures res.0 <==> IsConfigured(c) && |Key(c).value| >= (if IsTurboKey(Key(c).value) then 20 else 10)
    ensures !IsConfigured(c) ==> res.1 == "PUSH_KEY 和 SCKEY 都未设置"
    ensures res.0 ==> res.1 == "配置验证通过"
    ensures IsConfigured(c) && IsTurboKey(Key(c).value) && |Key(c).value| < 20 ==> res.1 == "新版 Server酱密钥格式不正确"
    ensures IsConfigured(c) && !IsTurboKey(Key(c).value) && |Key(c).value| < 10 ==> res.1 == "旧版 Server酱密钥格式不正确"
  {
    if !IsConfigured(c) then (false, "PUSH_KEY 和 SCKEY 都未设置")
    else
      var key := Key(c).value;
      if IsTurboKey(key) then
        if |key| < 20 then (false, "新版 Server酱密钥格式不正确") else (true, "配置验证通过")
      else
        if |key| < 10 then (false, "旧版 Server酱密钥格式不正确") else (true, "配置验证通过")
  }
}
