/**
 * The configuration manager: the settings cache built from the environment at start-up, the
 * per-service "is it configured" table, the notifier configuration blocks, value masking for logs,
 * format validation of a few keys, and the per-channel enable switches.
 */
module ConfigManager {
  import opened Wrappers
  import opened Text
  import opened Seqs

  /**
   * The settings cache. `text` holds the string settings that were set in the environment
   * (a key that is absent stands for Python's `None`); the loader also stores the integer
   * `GOTIFY_PRIORITY` and the `HITOKOTO` switch.
   */
  datatype Cache = Cache(text: map<string, string>, gotifyPriority: int, hitokoto: bool)

  /** `get_config(key)` for a string setting. */
  function GetConfig(c: Cache, key: string): (r: Option<string>)
    ensures r.Some? <==> key in c.text
    ensures r.Some? ==> r.value == c.text[key]
  {
    if key in c.text then Some(c.text[key]) else None
  }

  /** Python truthiness of a string-or-None setting. */
  predicate IsSet(v: Option<string>) {
    v.Some? && v.value != ""
  }

  /** The string keys the loader stores in the cache. */
  const LoadedTextKeys: set<string> := {
    "BARK_PUSH", "BARK_ARCHIVE", "BARK_GROUP", "BARK_SOUND", "BARK_ICON",
    "DD_BOT_SECRET", "DD_BOT_TOKEN", "FSKEY", "QYWX_AM", "QYWX_KEY",
    "TG_BOT_TOKEN", "TG_USER_ID", "TG_API_HOST", "TG_PROXY_AUTH", "TG_PROXY_HOST", "TG_PROXY_PORT",
    "PUSH_KEY", "SCKEY", "DEER_KEY", "DEER_URL", "PUSH_PLUS_TOKEN", "PUSH_PLUS_USER",
    "QMSG_KEY", "QMSG_TYPE", "GOTIFY_URL", "GOTIFY_TOKEN", "IGOT_PUSH_KEY",
    "SMTP_SERVER", "SMTP_SSL", "SMTP_EMAIL", "SMTP_PASSWORD", "SMTP_NAME", "SKIP_PUSH_TITLE"
  }

  /** A cache as the loader builds it: no string key beyond the loaded ones. */
  predicate Loaded(c: Cache) {
    c.text.Keys <= LoadedTextKeys
  }

  /**
   * `_load_config`: each string key takes its environment value, an empty value turning into
   * `None` (`os.environ.get(k) or None`); `HITOKOTO` is on only for a value that lower-cases to
   * "true". `priority` is `GOTIFY_PRIORITY` already converted by `int()`.
   */
  function LoadConfig(env: map<string, string>, priority: int): (c: Cache)
    ensures Loaded(c)
    ensures forall k :: k in LoadedTextKeys ==>
      (GetConfig(c, k).Some? <==> k in env && env[k] != "")
    ensures forall k :: k in c.text ==> k in env && c.text[k] == env[k] && c.text[k] != ""
    ensures c.gotifyPriority == priority
    ensures c.hitokoto <==> "HITOKOTO" in env && Lower(env["HITOKOTO"]) == "true"
  {
    Cache(
      map k | k in LoadedTextKeys && k in env && env[k] != "" :: env[k],
      priority,
      Lower(if "HITOKOTO" in env then env["HITOKOTO"] else "false") == "true")
  }

  /** In a loaded cache a string setting is truthy exactly when it is present. */
  lemma LoadedSetMeansPresent(env: map<string, string>, priority: int, key: string)
    ensures IsSet(GetConfig(LoadConfig(env, priority), key)) <==> GetConfig(LoadConfig(env, priority), key).Some?
  {
  }

  /** The dispatcher's tuning keys, each read with a default. */
  const TuningKeys: seq<string> := [
    "NOTIFICATION_TIMEOUT", "MAX_CONCURRENT_NOTIFICATIONS",
    "NOTIFICATION_RETRY_ATTEMPTS", "NOTIFICATION_RETRY_DELAY", "NOTIFICATION_MAX_RETRY_DELAY"
  ]

  /** The loader never stores a tuning key, so every lookup of one falls back to its default. */
  lemma TuningKeysNeverLoaded(c: Cache, i: nat)
    requires Loaded(c) && i < |TuningKeys|
    ensures GetConfig(c, TuningKeys[i]).None?
  {
  }

  /** The settings each service needs before it counts as configured. */
  const ServiceConfigs: map<string, seq<string>> := map[
    "bark" := ["BARK_PUSH"],
    "console" := [],
    "dingtalk" := ["DD_BOT_SECRET", "DD_BOT_TOKEN"],
    "feishu" := ["FSKEY"],
    "wecom_app" := ["QYWX_AM"],
    "wecom_bot" := ["QYWX_KEY"],
    "telegram" := ["TG_BOT_TOKEN", "TG_USER_ID"],
    "serverchan" := ["PUSH_KEY"],
    "serverchan_legacy" := ["SCKEY"],
    "pushdeer" := ["DEER_KEY"],
    "pushplus" := ["PUSH_PLUS_TOKEN"],
    "qmsg" := ["QMSG_KEY", "QMSG_TYPE"],
    "gotify" := ["GOTIFY_URL", "GOTIFY_TOKEN"],
    "igot" := ["IGOT_PUSH_KEY"],
    "smtp" := ["SMTP_SERVER", "SMTP_SSL", "SMTP_EMAIL", "SMTP_PASSWORD", "SMTP_NAME"]
  ]

  /** `all(get_config(k) for k in keys)`. */
  predicate AllSet(c: Cache, keys: seq<string>) {
    keys == [] || (IsSet(GetConfig(c, keys[0])) && AllSet(c, keys[1..]))
  }

  /** `is_configured(service)`. */
  function IsConfigured(c: Cache, service: string): (r: bool)
    ensures service !in ServiceConfigs ==> !r
    ensures service in ServiceConfigs ==>
      (r <==> forall i :: 0 <= i < |ServiceConfigs[service]| ==> IsSet(GetConfig(c, ServiceConfigs[service][i])))
  {
    if service !in ServiceConfigs then false
    else
      var required := ServiceConfigs[service];
      if required == [] then true
      else
        AllSetMeansEvery(c, required);
        AllSet(c, required)
  }

  lemma {:induction false} AllSetMeansEvery(c: Cache, keys: seq<string>)
    ensures AllSet(c, keys) <==> forall i :: 0 <= i < |keys| ==> IsSet(GetConfig(c, keys[i]))
  {
    if keys != [] {
      AllSetMeansEvery(c, keys[1..]);
      assert forall i :: 1 <= i < |keys| ==> keys[i] == keys[1..][i - 1];
    }
  }

  /** The console needs no settings; a service missing from the table never counts as configured. */
  lemma ConsoleAlwaysConfigured(c: Cache)
    ensures IsConfigured(c, "console")
    ensures !IsConfigured(c, "dingding")
  {
  }

  /** One entry of a notifier configuration block. */
  datatype Setting = Str(value: Option<string>) | Int(n: int)

  /** The services that `get_notifier_configs` tests, in the order it tests them. */
  const BlockServices: seq<string> := [
    "bark", "dingding", "feishu", "wecom_app", "wecom_bot", "telegram", "serverchan",
    "serverchan_legacy", "pushdeer", "pushplus", "qmsg", "gotify", "igot", "smtp"
  ]

  /** The configuration block `get_notifier_configs` builds for a service. */
  function Block(c: Cache, service: string): map<string, Setting> {
    match service
    case "bark" => map[
      "push_url" := Str(GetConfig(c, "BARK_PUSH")), "archive" := Str(GetConfig(c, "BARK_ARCHIVE")),
      "group" := Str(GetConfig(c, "BARK_GROUP")), "sound" := Str(GetConfig(c, "BARK_SOUND")),
      "icon" := Str(GetConfig(c, "BARK_ICON"))]
    case "dingding" => map[
      "secret" := Str(GetConfig(c, "DD_BOT_SECRET")), "token" := Str(GetConfig(c, "DD_BOT_TOKEN"))]
    case "feishu" => map["key" := Str(GetConfig(c, "FSKEY"))]
    case "wecom_app" => map["config" := Str(GetConfig(c, "QYWX_AM"))]
    case "wecom_bot" => map["key" := Str(GetConfig(c, "QYWX_KEY"))]
    case "telegram" => map[
      "bot_token" := Str(GetConfig(c, "TG_BOT_TOKEN")), "user_id" := Str(GetConfig(c, "TG_USER_ID")),
      "api_host" := Str(GetConfig(c, "TG_API_HOST")), "proxy_auth" := Str(GetConfig(c, "TG_PROXY_AUTH")),
      "proxy_host" := Str(GetConfig(c, "TG_PROXY_HOST")), "proxy_port" := Str(GetConfig(c, "TG_PROXY_PORT"))]
    case "serverchan" => map["key" := Str(GetConfig(c, "PUSH_KEY"))]
    case "serverchan_legacy" => map["key" := Str(GetConfig(c, "SCKEY"))]
    case "pushdeer" => map["key" := Str(GetConfig(c, "DEER_KEY")), "url" := Str(GetConfig(c, "DEER_URL"))]
    case "pushplus" => map[
      "token" := Str(GetConfig(c, "PUSH_PLUS_TOKEN")), "user" := Str(GetConfig(c, "PUSH_PLUS_USER"))]
    case "qmsg" => map["key" := Str(GetConfig(c, "QMSG_KEY")), "type" := Str(GetConfig(c, "QMSG_TYPE"))]
    case "gotify" => map[
      "url" := Str(GetConfig(c, "GOTIFY_URL")), "token" := Str(GetConfig(c, "GOTIFY_TOKEN")),
      "priority" := Int(c.gotifyPriority)]
    case "igot" => map["key" := Str(GetConfig(c, "IGOT_PUSH_KEY"))]
    case "smtp" => map[
      "server" := Str(GetConfig(c, "SMTP_SERVER")), "ssl" := Str(GetConfig(c, "SMTP_SSL")),
      "email" := Str(GetConfig(c, "SMTP_EMAIL")), "password" := Str(GetConfig(c, "SMTP_PASSWORD")),
      "name" := Str(GetConfig(c, "SMTP_NAME"))]
    case _ => map[]
  }

  /**
   * `get_notifier_configs`: one block per configured service, tested in `BlockServices` order.
   * The `dingding` block is tested under a name the service table does not have, so it is
   * never produced.
   */
  method GetNotifierConfigs(c: Cache) returns (configs: map<string, map<string, Setting>>)
    ensures forall s :: s in configs <==> s in BlockServices && IsConfigured(c, s)
    ensures forall s :: s in configs ==> configs[s] == Block(c, s)
    ensures "dingding" !in configs
    ensures "console" !in configs
  {
    configs := map[];
    var i := 0;
    while i < |BlockServices|
      invariant 0 <= i <= |BlockServices|
      invariant forall s :: s in configs <==> s in BlockServices[..i] && IsConfigured(c, s)
      invariant forall s :: s in configs ==> configs[s] == Block(c, s)
    {
      var service := BlockServices[i];
      assert BlockServices[..i + 1] == BlockServices[..i] + [service];
      if IsConfigured(c, service) {
        configs := configs[service := Block(c, service)];
      }
      i := i + 1;
    }
    assert BlockServices[..i] == BlockServices;
    ConsoleAlwaysConfigured(c);
    ConsoleNotInBlocks();
  }

  lemma ConsoleNotInBlocks()
    ensures "console" !in BlockServices
  {
  }

  /** `mask_sensitive_value`: the first and last three characters survive only in values longer than six. */
  function MaskSensitiveValue(value: string): (r: string)
    ensures |r| == |value|
    ensures |value| <= 6 ==> r == Repeat('*', |value|)
    ensures |value| > 6 ==> r[..3] == value[..3] && r[|r| - 3..] == value[|value| - 3..]
    ensures |value| > 6 ==> forall i :: 3 <= i < |r| - 3 ==> r[i] == '*'
  {
    if value == "" || |value| <= 6 then
      (if value != "" then Repeat('*', |value|) else "")
    else
      value[..3] + Repeat('*', |value| - 6) + value[|value| - 3..]
  }

  /**
   * `re.match(r'^[a-zA-Z0-9]+$', s)` as Python evaluates it: `$` also matches just before a
   * final newline, so one trailing "\n" after the letters and digits is accepted.
   */
  predicate RegexAlnumMatch(s: string) {
    AllAsciiAlnum(s) || (|s| >= 2 && s[|s| - 1] == '\n' && AllAsciiAlnum(s[..|s| - 1]))
  }

  /** The pattern accepts a key that is not made of letters and digits only. */
  lemma RegexAcceptsTrailingNewline()
    ensures RegexAlnumMatch("abc\n") && !AllAsciiAlnum("abc\n")
  {
    assert "abc\n"[..3] == "abc";
  }

  /** The check the pattern is meant to make: the key is nothing but ASCII letters and digits. */
  predicate KeyFormatOk(s: string)
    ensures KeyFormatOk(s) ==> '\n' !in s && s != ""
  {
    AllAsciiAlnum(s)
  }

  const PushKeyError: string := "PUSH_KEY 格式不正确"
  const SckeyError: string := "SCKEY 格式不正确"
  const QywxAmError: string := "QYWX_AM 配置格式错误，应为：corpid,corpsecret,touser,agentid[,media_id]"
  const SmtpSslError: string := "SMTP_SSL 应设置为 true 或 false"

  /**
   * The tests of `validate_config` with the key format test `keyOk` as a parameter: one error
   * per malformed setting, keyed by the setting's name.
   */
  method CheckFormats(c: Cache, keyOk: string -> bool) returns (errors: map<string, string>)
    ensures errors.Keys <= {"PUSH_KEY", "SCKEY", "QYWX_AM", "SMTP_SSL"}
    ensures "PUSH_KEY" in errors <==>
      IsSet(GetConfig(c, "PUSH_KEY")) && !(StartsWith(c.text["PUSH_KEY"], "SCT") || keyOk(c.text["PUSH_KEY"]))
    ensures "SCKEY" in errors <==> IsSet(GetConfig(c, "SCKEY")) && !keyOk(c.text["SCKEY"])
    ensures "QYWX_AM" in errors <==>
      IsSet(GetConfig(c, "QYWX_AM")) && !(3 <= Occurrences(c.text["QYWX_AM"], ',') <= 4)
    ensures "SMTP_SSL" in errors <==>
      IsSet(GetConfig(c, "SMTP_SSL")) && Lower(c.text["SMTP_SSL"]) != "true" && Lower(c.text["SMTP_SSL"]) != "false"
    ensures "PUSH_KEY" in errors ==> errors["PUSH_KEY"] == PushKeyError
    ensures "SCKEY" in errors ==> errors["SCKEY"] == SckeyError
    ensures "QYWX_AM" in errors ==> errors["QYWX_AM"] == QywxAmError
    ensures "SMTP_SSL" in errors ==> errors["SMTP_SSL"] == SmtpSslError
  {
    errors := map[];
    var pushKey := GetConfig(c, "PUSH_KEY");
    var sckey := GetConfig(c, "SCKEY");
    if IsSet(pushKey) && !(StartsWith(pushKey.value, "SCT") || keyOk(pushKey.value)) {
      errors := errors["PUSH_KEY" := PushKeyError];
    }
    if IsSet(sckey) && !keyOk(sckey.value) {
      errors := errors["SCKEY" := SckeyError];
    }
    var qywxAm := GetConfig(c, "QYWX_AM");
    if IsSet(qywxAm) {
      var parts := Split(qywxAm.value, ',');
      SplitLength(qywxAm.value, ',');
      if |parts| < 4 || |parts| > 5 {
        errors := errors["QYWX_AM" := QywxAmError];
      }
    }
    var smtpSsl := GetConfig(c, "SMTP_SSL");
    if IsSet(smtpSsl) && Lower(smtpSsl.value) !in ["true", "false"] {
      errors := errors["SMTP_SSL" := SmtpSslError];
    }
  }

  /** `validate_config` as written: the key format test is `re.match` with `$` (see `RegexAlnumMatch`). */
  method ValidateConfig(c: Cache) returns (errors: map<string, string>)
    ensures errors.Keys <= {"PUSH_KEY", "SCKEY", "QYWX_AM", "SMTP_SSL"}
    ensures "PUSH_KEY" in errors <==>
      IsSet(GetConfig(c, "PUSH_KEY")) && !(StartsWith(c.text["PUSH_KEY"], "SCT") || RegexAlnumMatch(c.text["PUSH_KEY"]))
    ensures "SCKEY" in errors <==> IsSet(GetConfig(c, "SCKEY")) && !RegexAlnumMatch(c.text["SCKEY"])
    ensures "QYWX_AM" in errors <==>
      IsSet(GetConfig(c, "QYWX_AM")) && !(3 <= Occurrences(c.text["QYWX_AM"], ',') <= 4)
    ensures "SMTP_SSL" in errors <==>
      IsSet(GetConfig(c, "SMTP_SSL")) && Lower(c.text["SMTP_SSL"]) != "true" && Lower(c.text["SMTP_SSL"]) != "false"
    ensures "PUSH_KEY" in errors ==> errors["PUSH_KEY"] == PushKeyError
    ensures "SCKEY" in errors ==> errors["SCKEY"] == SckeyError
    ensures "QYWX_AM" in errors ==> errors["QYWX_AM"] == QywxAmError
    ensures "SMTP_SSL" in errors ==> errors["SMTP_SSL"] == SmtpSslError
  {
    errors := CheckFormats(c, RegexAlnumMatch);
  }

  /** `validate_config` with the intended full-match key test `KeyFormatOk`. */
  method ValidateConfigIntended(c: Cache) returns (errors: map<string, string>)
    ensures errors.Keys <= {"PUSH_KEY", "SCKEY", "QYWX_AM", "SMTP_SSL"}
    ensures "PUSH_KEY" in errors <==>
      IsSet(GetConfig(c, "PUSH_KEY")) && !(StartsWith(c.text["PUSH_KEY"], "SCT") || KeyFormatOk(c.text["PUSH_KEY"]))
    ensures "SCKEY" in errors <==> IsSet(GetConfig(c, "SCKEY")) && !KeyFormatOk(c.text["SCKEY"])
    ensures "QYWX_AM" in errors <==>
      IsSet(GetConfig(c, "QYWX_AM")) && !(3 <= Occurrences(c.text["QYWX_AM"], ',') <= 4)
    ensures "SMTP_SSL" in errors <==>
      IsSet(GetConfig(c, "SMTP_SSL")) && Lower(c.text["SMTP_SSL"]) != "true" && Lower(c.text["SMTP_SSL"]) != "false"
    ensures "PUSH_KEY" in errors ==> errors["PUSH_KEY"] == PushKeyError
    ensures "SCKEY" in errors ==> errors["SCKEY"] == SckeyError
    ensures "QYWX_AM" in errors ==> errors["QYWX_AM"] == QywxAmError
    ensures "SMTP_SSL" in errors ==> errors["SMTP_SSL"] == SmtpSslError
  {
    errors := CheckFormats(c, KeyFormatOk);
  }

  /**
   * The written test and the intended one disagree only on a key of letters and digits
   * followed by one newline, which the written test lets through.
   */
  lemma RegexDiffersOnlyByNewline(s: string)
    ensures KeyFormatOk(s) ==> RegexAlnumMatch(s)
    ensures RegexAlnumMatch(s) && !KeyFormatOk(s) ==>
      |s| >= 2 && s[|s| - 1] == '\n' && KeyFormatOk(s[..|s| - 1])
  {
  }

  /** The notification channels file: its channel names in file order and the explicit `enabled` values. */
  datatype ChannelsFile = ChannelsFile(order: seq<string>, enabled: map<string, bool>)

  const TrueWords: seq<string> := ["true", "1", "yes", "on"]
  const FalseWords: seq<string> := ["false", "0", "no", "off"]

  /** `os.environ.get("ENABLE_" + channel.upper(), '').lower()`. */
  function EnableSwitch(env: map<string, string>, channel: string): string {
    var key := "ENABLE_" + Upper(channel);
    Lower(if key in env then env[key] else "")
  }

  /** `is_channel_enabled`: the environment switch wins; otherwise the file's `enabled`, false when missing. */
  function IsChannelEnabled(env: map<string, string>, file: ChannelsFile, channel: string): (r: bool)
    ensures EnableSwitch(env, channel) in TrueWords ==> r
    ensures EnableSwitch(env, channel) in FalseWords ==> !r
    ensures EnableSwitch(env, channel) !in TrueWords + FalseWords ==>
      (r <==> channel in file.enabled && file.enabled[channel])
  {
    var v := EnableSwitch(env, channel);
    if v in TrueWords then true
    else if v in FalseWords then false
    else if channel in file.enabled then file.enabled[channel]
    else false
  }

  /** The test `get_enabled_channels` applies to each channel of the file. */
  predicate Selected(env: map<string, string>, c: Cache, file: ChannelsFile, channel: string) {
    IsChannelEnabled(env, file, channel) && IsConfigured(c, channel)
  }

  /** `get_enabled_channels`: the file's channels that are both enabled and configured, in file order. */
  method GetEnabledChannels(env: map<string, string>, c: Cache, file: ChannelsFile) returns (enabled: seq<string>)
    ensures enabled == Filter(file.order, ch => Selected(env, c, file, ch))
    ensures forall ch :: ch in enabled <==> ch in file.order && Selected(env, c, file, ch)
  {
    var p := ch => Selected(env, c, file, ch);
    enabled := [];
    var i := 0;
    while i < |file.order|
      invariant 0 <= i <= |file.order|
      invariant enabled == Filter(file.order[..i], p)
    {
      var name := file.order[i];
      FilterConcat(file.order[..i], [name], p);
      assert file.order[..i + 1] == file.order[..i] + [name];
      if Selected(env, c, file, name) {
        enabled := enabled + [name];
      }
      i := i + 1;
    }
    assert file.order[..i] == file.order;
    forall ch ensures ch in enabled <==> ch in file.order && Selected(env, c, file, ch) {
      FilterMembership(file.order, p, ch);
    }
  }
}
