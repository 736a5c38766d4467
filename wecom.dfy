/** The WeCom notifiers: the application notifier with its `QYWX_AM` setting and two message kinds, and the webhook bot. */
module WeCom {
  import opened Wrappers
  import opened Text
  import opened JsonValue
  import opened NotifierBase
  import ConfigManager

  const AppName: string := "企业微信应用"
  const BotName: string := "企业微信机器人"

  /** The application's `QYWX_AM` fields, by position; the media id is "" when there are only four. */
  datatype AmConfig = AmConfig(corpid: string, corpsecret: string, touser: string, agentid: string, mediaId: string)

  const AmFormatError: string := "QYWX_AM 配置格式错误"

  /** The comma-separated parts an `AmConfig` is written as: four, or five with a media id. */
  function AmParts(cfg: AmConfig): seq<string> {
    [cfg.corpid, cfg.corpsecret, cfg.touser, cfg.agentid] + (if cfg.mediaId == "" then [] else [cfg.mediaId])
  }

  /** Split on `,`, accept four or five parts, and take the fields by position. */
  function ParseQywxAm(s: string): (r: Result<AmConfig, string>)
    ensures r.Err? <==> !(3 <= Occurrences(s, ',') <= 4)
    ensures r.Err? ==> r.error == AmFormatError
    ensures r.Ok? && r.value.mediaId != "" ==> Join(AmParts(r.value), ",") == s
    ensures r.Ok? ==> forall i :: 0 <= i < |AmParts(r.value)| ==> ',' !in AmParts(r.value)[i]
  {
    var parts := Split(s, ',');
    SplitLength(s, ',');
    JoinSplit(s, ',');
    if |parts| < 4 || |parts| > 5 then Err(AmFormatError)
    else
      var cfg := AmConfig(parts[0], parts[1], parts[2], parts[3], if |parts| == 5 then parts[4] else "");
      assert |parts| == 5 && cfg.mediaId != "" ==> AmParts(cfg) == parts;
      Ok(cfg)
  }

  /** Writing the fields out and parsing them again gives the same fields back. */
  lemma ParseOfParts(cfg: AmConfig)
    requires forall i :: 0 <= i < |AmParts(cfg)| ==> ',' !in AmParts(cfg)[i]
    ensures ParseQywxAm(Join(AmParts(cfg), ",")) == Ok(cfg)
  {
    SplitJoin(AmParts(cfg), ',');
  }

  /** A fifth part that is empty (a trailing comma) is the same as no media id. */
  lemma TrailingCommaMeansText(a: string, b: string, c: string, d: string)
    requires ',' !in a && ',' !in b && ',' !in c && ',' !in d
    ensures ParseQywxAm(a + "," + b + "," + c + "," + d + ",") == Ok(AmConfig(a, b, c, d, ""))
  {
    var parts := [a, b, c, d, ""];
    SplitJoin(parts, ',');
    assert parts[1..][1..][1..][1..] == [""];
    assert Join(parts[1..][1..][1..], ",") == d + "," + "";
    assert Join(parts[1..][1..], ",") == c + "," + d + ",";
    assert Join(parts[1..], ",") == b + "," + c + "," + d + ",";
    assert Join(parts, ",") == a + "," + b + "," + c + "," + d + ",";
  }

  /** `is_configured` of the application notifier: `QYWX_AM` is set. */
  predicate AppIsConfigured(c: ConfigManager.Cache) {
    ConfigManager.IsSet(ConfigManager.GetConfig(c, "QYWX_AM"))
  }

  /** `is_configured` of the bot: `QYWX_KEY` is set. */
  predicate BotIsConfigured(c: ConfigManager.Cache) {
    ConfigManager.IsSet(ConfigManager.GetConfig(c, "QYWX_KEY"))
  }

  lemma IsConfiguredAgrees(c: ConfigManager.Cache)
    ensures AppIsConfigured(c) <==> ConfigManager.IsConfigured(c, "wecom_app")
    ensures BotIsConfigured(c) <==> ConfigManager.IsConfigured(c, "wecom_bot")
  {
    assert ConfigManager.ServiceConfigs["wecom_app"] == ["QYWX_AM"];
    assert ConfigManager.ServiceConfigs["wecom_bot"] == ["QYWX_KEY"];
  }

  /** The mpnews article body: the lines of the message, joined by `<br/>` instead of newlines. */
  function MpNewsContent(message: string): (html: string)
    ensures html == Join(Split(message, '\n'), "<br/>")
    ensures '\n' !in html
    ensures |html| == |message| + 4 * Occurrences(message, '\n')
    ensures Split(html, '\n') == [html]
  {
    ReplaceIsJoinOfSplit(message, '\n', "<br/>");
    ReplaceLength(message, '\n', "<br/>");
    SplitNoSeparator(Replace(message, '\n', "<br/>"), '\n');
    Replace(message, '\n', "<br/>")
  }

  /**
   * The message the application client posts: text (title, blank line, content) when the
   * media id is empty, otherwise one mpnews article.
   */
  function AppMessage(cfg: AmConfig, title: string, content: string): (m: Json)
    ensures m.JObj? && "msgtype" in m.fields && "touser" in m.fields && "agentid" in m.fields
    ensures m.fields["touser"] == JStr(cfg.touser) && m.fields["agentid"] == JStr(cfg.agentid)
    ensures cfg.mediaId == "" <==> m.fields["msgtype"] == JStr("text")
    ensures cfg.mediaId == "" ==> "text" in m.fields && m.fields["text"] == JObj(map["content" := JStr(title + "\n\n" + content)])
    ensures cfg.mediaId != "" ==>
      "mpnews" in m.fields && m.fields["mpnews"] == JObj(map["articles" := JArr([Article(title, content, cfg.mediaId)])])
    ensures cfg.mediaId == "" && '\n' !in title ==> SplitAtBlankLine(m.fields["text"].fields["content"].s) == (title, content)
  {
    BlankLineRoundTrip(title, content);
    if cfg.mediaId == "" then
      JObj(map[
        "touser" := JStr(cfg.touser), "msgtype" := JStr("text"), "agentid" := JStr(cfg.agentid),
        "text" := JObj(map["content" := JStr(title + "\n\n" + content)]), "safe" := JStr("0")])
    else
      JObj(map[
        "touser" := JStr(cfg.touser), "msgtype" := JStr("mpnews"), "agentid" := JStr(cfg.agentid),
        "mpnews" := JObj(map["articles" := JArr([Article(title, content, cfg.mediaId)])])])
  }

  /**
   * The one mpnews article: the raw message as the digest, and as the body the digest's lines
   * joined by `<br/>`.
   */
  function Article(title: string, message: string, mediaId: string): (a: Json)
    ensures a.JObj? && a.fields.Keys == {"title", "thumb_media_id", "author", "content_source_url", "content", "digest"}
    ensures a.fields["digest"].JStr? && a.fields["content"].JStr?
    ensures a.fields["content"].s == Join(Split(a.fields["digest"].s, '\n'), "<br/>")
    ensures a.fields["digest"] == JStr(message) && '\n' !in a.fields["content"].s
    ensures a.fields["title"] == JStr(title) && a.fields["thumb_media_id"] == JStr(mediaId)
  {
    JObj(map[
      "title" := JStr(title), "thumb_media_id" := JStr(mediaId), "author" := JStr("Author"),
      "content_source_url" := JStr(""), "content" := JStr(MpNewsContent(message)), "digest" := JStr(message)])
  }

  /**
   * The application notifier's `send`. `reply` is the client's answer: `Ok(v)` with `v` the
   * `errmsg` of the message call, or `Err(m)` with `str(e)` of whatever the token fetch or the
   * message call raised.
   */
  function AppSend(c: ConfigManager.Cache, title: string, content: string, reply: Result<Json, string>): (r: NotificationResult)
    ensures r.channel == AppName
    ensures r.success <==> AppIsConfigured(c) && ParseQywxAm(c.text["QYWX_AM"]).Ok? && reply == Ok(JStr("ok"))
    ensures r.success ==> r.error.None? && r.message == "企业微信应用推送成功"
    ensures !AppIsConfigured(c) ==> r.error == Some("QYWX_AM 未设置") && r.message == "配置错误"
    ensures AppIsConfigured(c) && ParseQywxAm(c.text["QYWX_AM"]).Err? ==> r.error == Some(AmFormatError) && r.message == "配置错误"
    ensures AppIsConfigured(c) && ParseQywxAm(c.text["QYWX_AM"]).Ok? && reply.Err? ==>
      r.error == Some("发送异常: " + reply.error) && r.message == "企业微信应用推送失败"
    ensures AppIsConfigured(c) && ParseQywxAm(c.text["QYWX_AM"]).Ok? && reply.Ok? && reply.value != JStr("ok") ==>
      r.error == Display(reply.value) && r.message == "企业微信应用推送失败"
  {
    if !AppIsConfigured(c) then CreateErrorResult(AppName, Some("QYWX_AM 未设置"), "配置错误")
    else match ParseQywxAm(c.text["QYWX_AM"])
      case Err(e) => CreateErrorResult(AppName, Some(e), "配置错误")
      case Ok(_) =>
        match reply
        case Err(m) => CreateErrorResult(AppName, Some("发送异常: " + m), "企业微信应用推送失败")
        case Ok(v) =>
          if v == JStr("ok") then CreateSuccessResult(AppName, "企业微信应用推送成功")
          else CreateErrorResult(AppName, Display(v), "企业微信应用推送失败")
  }

  /** A malformed `QYWX_AM` fails before any client call: the reply plays no part. */
  lemma MalformedAmSkipsClient(c: ConfigManager.Cache, title: string, content: string, r1: Result<Json, string>, r2: Result<Json, string>)
    requires AppIsConfigured(c) && ParseQywxAm(c.text["QYWX_AM"]).Err?
    ensures AppSend(c, title, content, r1) == AppSend(c, title, content, r2)
  {
  }

  /** The bot's webhook URL. */
  function BotUrl(key: string): string {
    "https://qyapi.weixin.qq.com/cgi-bin/webhook/send?key=" + key
  }

  /** The bot's message: a text message of title, blank line, content. */
  function BotMessage(title: string, content: string): (m: Json)
    ensures m.JObj? && m.fields.Keys == {"msgtype", "text"} && m.fields["msgtype"] == JStr("text")
    ensures m.fields["text"].JObj? && m.fields["text"].fields.Keys == {"content"}
    ensures m.fields["text"].fields["content"] == JStr(title + "\n\n" + content)
    ensures '\n' !in title ==> SplitAtBlankLine(m.fields["text"].fields["content"].s) == (title, content)
  {
    BlankLineRoundTrip(title, content);
    JObj(map["msgtype" := JStr("text"), "text" := JObj(map["content" := JStr(title + "\n\n" + content)])])
  }

  /** The bot's `send` given what the POST came back with. */
  function BotSend(c: ConfigManager.Cache, reply: Reply): (r: NotificationResult)
    ensures r.channel == BotName
    ensures r.success <==> BotIsConfigured(c) && reply.Body? && GetEquals(reply.json, "errcode", 0)
    ensures r.success ==> r.error.None? && r.message == "企业微信机器人推送成功"
    ensures !BotIsConfigured(c) ==> r.error == Some("QYWX_KEY 未设置") && r.message == "配置错误"
    ensures BotIsConfigured(c) && reply.Body? && reply.json.JObj? && !GetEquals(reply.json, "errcode", 0) ==>
      r.message == "企业微信机器人推送失败" &&
      ("errmsg" !in reply.json.fields ==> r.error == Some("未知错误")) &&
      ("errmsg" in reply.json.fields ==> r.error == Display(reply.json.fields["errmsg"]))
  {
    if !BotIsConfigured(c) then CreateErrorResult(BotName, Some("QYWX_KEY 未设置"), "配置错误")
    else if reply.Body? && reply.json.JObj? then
      if GetEquals(reply.json, "errcode", 0) then CreateSuccessResult(BotName, "企业微信机器人推送成功")
      else CreateErrorResult(BotName, Display(GetOr(reply.json, "errmsg", JStr("未知错误"))), "企业微信机器人推送失败")
    else
      FailureResult(BotName, reply, "企业微信机器人推送失败")
  }
}
