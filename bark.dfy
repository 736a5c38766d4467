/** The Bark notifier: the URL base, the optional query parameters, and reading the reply. */
module Bark {
  import opened Wrappers
  import opened Text
  import opened JsonValue
  import opened NotifierBase
  import ConfigManager

  const Name: string := "Bark"

  /** `is_configured`: `BARK_PUSH` is set. */
  predicate IsConfigured(c: ConfigManager.Cache) {
    ConfigManager.IsSet(ConfigManager.GetConfig(c, "BARK_PUSH"))
  }

  lemma IsConfiguredAgrees(c: ConfigManager.Cache)
    ensures IsConfigured(c) <==> ConfigManager.IsConfigured(c, "bark")
  {
    assert ConfigManager.ServiceConfigs["bark"] == ["BARK_PUSH"];
  }

  /** The optional settings and the query names they become, in the order `_build_params` visits them. */
  const ParamKeys: seq<(string, string)> := [
    ("BARK_ARCHIVE", "isArchive"), ("BARK_GROUP", "group"), ("BARK_SOUND", "sound"), ("BARK_ICON", "icon")
  ]

  /** What one setting contributes: `name=value&` when the value is set, nothing otherwise. */
  function Piece(c: ConfigManager.Cache, key: (string, string)): string {
    var value := ConfigManager.GetConfig(c, key.0);
    if ConfigManager.IsSet(value) then key.1 + "=" + value.value + "&" else ""
  }

  /** The query text for the settings `keys`, visited in order. */
  function ParamsOf(c: ConfigManager.Cache, keys: seq<(string, string)>): string
    decreases |keys|
  {
    if keys == [] then "" else ParamsOf(c, keys[..|keys| - 1]) + Piece(c, keys[|keys| - 1])
  }

  /** `_build_params`. */
  method BuildParams(c: ConfigManager.Cache) returns (params: string)
    ensures params == ParamsOf(c, ParamKeys)
    ensures params == "" <==> forall i :: 0 <= i < |ParamKeys| ==> !ConfigManager.IsSet(ConfigManager.GetConfig(c, ParamKeys[i].0))
    ensures params != "" ==> params[|params| - 1] == '&'
  {
    params := "";
    var i := 0;
    while i < |ParamKeys|
      invariant 0 <= i <= |ParamKeys|
      invariant params == ParamsOf(c, ParamKeys[..i])
    {
      var key := ParamKeys[i];
      assert ParamKeys[..i + 1][..i] == ParamKeys[..i];
      assert ParamsOf(c, ParamKeys[..i + 1]) == ParamsOf(c, ParamKeys[..i]) + Piece(c, key);
      var value := ConfigManager.GetConfig(c, key.0);
      if ConfigManager.IsSet(value) {
        params := params + (key.1 + "=" + value.value + "&");
      }
      i := i + 1;
    }
    assert ParamKeys[..i] == ParamKeys;
    ParamsEmpty(c, ParamKeys);
    ParamsEndWithAmp(c, ParamKeys);
  }

  /** No query text exactly when no setting is set. */
  lemma {:induction false} ParamsEmpty(c: ConfigManager.Cache, keys: seq<(string, string)>)
    ensures ParamsOf(c, keys) == "" <==> forall i :: 0 <= i < |keys| ==> !ConfigManager.IsSet(ConfigManager.GetConfig(c, keys[i].0))
    decreases |keys|
  {
    if keys != [] {
      var init := keys[..|keys| - 1];
      ParamsEmpty(c, init);
      assert forall i :: 0 <= i < |init| ==> init[i] == keys[i];
    }
  }

  /** A non-empty query text ends with the separator of its last piece. */
  lemma {:induction false} ParamsEndWithAmp(c: ConfigManager.Cache, keys: seq<(string, string)>)
    ensures ParamsOf(c, keys) != "" ==> ParamsOf(c, keys)[|ParamsOf(c, keys)| - 1] == '&'
    decreases |keys|
  {
    if keys != [] {
      ParamsEndWithAmp(c, keys[..|keys| - 1]);
    }
  }

  /** No set value ends with `&`. */
  predicate NoValueEndsWithAmp(c: ConfigManager.Cache, keys: seq<(string, string)>) {
    forall i :: 0 <= i < |keys| && ConfigManager.IsSet(ConfigManager.GetConfig(c, keys[i].0)) ==>
      ConfigManager.GetConfig(c, keys[i].0).value[|ConfigManager.GetConfig(c, keys[i].0).value| - 1] != '&'
  }

  /**
   * `params.rstrip("&")` removes only the last separator when no value ends with `&`; a value
   * that does end with `&` loses those characters too.
   */
  lemma {:induction false} StripRemovesLastSeparator(c: ConfigManager.Cache, keys: seq<(string, string)>)
    requires NoValueEndsWithAmp(c, keys)
    requires ParamsOf(c, keys) != ""
    ensures RStrip(ParamsOf(c, keys), '&') + "&" == ParamsOf(c, keys)
    decreases |keys|
  {
    var init := keys[..|keys| - 1];
    var last := keys[|keys| - 1];
    var p := ParamsOf(c, keys);
    if Piece(c, last) == "" {
      assert forall i :: 0 <= i < |init| ==> init[i] == keys[i];
      StripRemovesLastSeparator(c, init);
    } else {
      var v := ConfigManager.GetConfig(c, last.0).value;
      assert NoValueEndsWithAmp(c, keys) && ConfigManager.IsSet(ConfigManager.GetConfig(c, keys[|keys| - 1].0));
      assert v[|v| - 1] != '&';
      assert p[|p| - 1] == '&' && p[|p| - 2] == v[|v| - 1];
      var q := p[..|p| - 1];
      assert RStrip(p, '&') == RStrip(q, '&');
      assert RStrip(q, '&') == q;
      assert q + "&" == p;
    }
  }

  /** The URL base: a `BARK_PUSH` that starts with "http" is a full server URL, anything else a device key. */
  function UrlBase(push: string): (base: string)
    ensures StartsWith(push, "http") ==> base == push
    ensures !StartsWith(push, "http") ==> base == "https://api.day.app/" + push
  {
    if StartsWith(push, "http") then push else "https://api.day.app/" + push
  }

  /**
   * The request URL; `quote` stands for `urllib.parse.quote_plus`. The query part is present
   * exactly when some optional setting is set.
   */
  function Url(push: string, title: string, content: string, params: string, quote: string -> string): (url: string)
    ensures params == "" ==> url == UrlBase(push) + "/" + quote(title) + "/" + quote(content)
    ensures params != "" ==> url == UrlBase(push) + "/" + quote(title) + "/" + quote(content) + "?" + RStrip(params, '&')
  {
    var path := UrlBase(push) + "/" + quote(title) + "/" + quote(content);
    if params != "" then path + "?" + RStrip(params, '&') else path
  }

  /** `send(title, content)` given what the GET came back with. */
  function Send(c: ConfigManager.Cache, reply: Reply): (r: NotificationResult)
    ensures r.channel == Name
    ensures r.success <==> IsConfigured(c) && reply.Body? && GetEquals(reply.json, "code", 200)
    ensures r.success ==> r.error.None? && r.message == "Bark 推送成功"
    ensures !IsConfigured(c) ==> r.error == Some("BARK_PUSH 未设置") && r.message == "配置错误"
    ensures IsConfigured(c) && reply.Body? && reply.json.JObj? && !GetEquals(reply.json, "code", 200) ==>
      r.message == "Bark 推送失败" &&
      ("message" !in reply.json.fields ==> r.error == Some("未知错误")) &&
      ("message" in reply.json.fields ==> r.error == Display(reply.json.fields["message"]))
  {
    if !IsConfigured(c) then CreateErrorResult(Name, Some("BARK_PUSH 未设置"), "配置错误")
    else if reply.Body? && reply.json.JObj? then
      if GetEquals(reply.json, "code", 200) then CreateSuccessResult(Name, "Bark 推送成功")
      else CreateErrorResult(Name, Display(GetOr(reply.json, "message", JStr("未知错误"))), "Bark 推送失败")
    else
      FailureResult(Name, reply, "Bark 推送失败")
  }
}
