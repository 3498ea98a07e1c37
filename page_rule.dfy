/**
 * A zone page rule: a URL target, an ordered list of `{id, value}` actions
 * kept unique by id through a keyed upsert, an optional status and an
 * optional priority. Each action setter validates its argument (or not),
 * turns booleans into "on"/"off" and upserts under its fixed id.
 */
module PageRules {
  import opened Php
  import opened Keyed

  /** The characters of the class `[a-zA-Z0-9\.=|_*-]` (the `/i` flag adds nothing to it). */
  predicate IsCookieChar(ch: char) {
    || 'a' <= ch <= 'z' || 'A' <= ch <= 'Z' || '0' <= ch <= '9'
    || ch == '.' || ch == '=' || ch == '|' || ch == '_' || ch == '*' || ch == '-'
  }

  predicate IsCookieWord(s: string) {
    |s| >= 1 && forall i :: 0 <= i < |s| ==> IsCookieChar(s[i])
  }

  /**
   * `preg_match('/^([a-zA-Z0-9\.=|_*-]+)$/i', s)`: one or more class
   * characters, where PCRE's `$` also matches just before a final "\n".
   */
  predicate MatchesCookiePattern(s: string) {
    IsCookieWord(s) || (|s| >= 2 && s[|s| - 1] == '\n' && IsCookieWord(s[..|s| - 1]))
  }

  const CacheLevels: seq<string> := ["bypass", "basic", "simplified", "aggressive", "cache_everything"]
  const SslModes: seq<string> := ["off", "flexible", "full", "strict", "origin_pull"]
  const MaxEdgeCacheTtl: int := 2678400

  /** `transformValue`: a boolean becomes "on" or "off", anything else is kept. */
  function TransformValue(v: Value): (r: Value)
    ensures v.Bool? ==> r == Str(if v.b then "on" else "off")
    ensures !v.Bool? ==> r == v
    ensures !r.Bool?
  {
    if v.Bool? then Str(if v.b then "on" else "off") else v
  }

  /** One variant per action setter of the page rule, with its arguments. */
  datatype Setting =
    | AlwaysUseHttps(on: bool)
    | AutomaticHttpsRewrites(on: bool)
    | BrowserCacheTtl(ttl: int)
    | BrowserIntegrityCheck(on: bool)
    | BypassCacheOnCookie(cookie: string)
    | CacheByDeviceType(on: bool)
    | CacheKey(key: string)
    | CacheLevel(level: string)
    | CacheOnCookie(cookie: string)
    | DisableApps(on: bool)
    | DisablePerformance(on: bool)
    | DisableZaraz(on: bool)
    | EdgeCacheTtl(ttl: int)
    | EmailObfuscation(on: bool)
    | ForwardingUrl(url: string, statusCode: int := 301)
    | HostHeaderOverride(host: string)
    | IpGeolocationHeader(on: bool)
    | Mirage(on: bool)
    | OpportunisticEncryption(on: bool)
    | OriginCacheControl(on: bool)
    | DisableSecurity(on: bool)
    | OriginErrorPagePassThru(on: bool)
    | QueryStringSort(on: bool)
    | ResolveOverride(origin: string)
    | RespectStrongEtag(on: bool)
    | ResponseBuffering(on: bool)
    | RocketLoader(on: bool)
    | Ssl(mode: string)
    | TrueClientIpHeader(on: bool)
    | Waf(on: bool)

  /** The setters that validate their argument, and what they accept. */
  predicate Rejected(s: Setting) {
    match s
    case BypassCacheOnCookie(cookie) => !MatchesCookiePattern(cookie)
    case CacheOnCookie(cookie) => !MatchesCookiePattern(cookie)
    case CacheLevel(level) => level !in CacheLevels
    case EdgeCacheTtl(ttl) => ttl > MaxEdgeCacheTtl
    case ForwardingUrl(_, statusCode) => statusCode != 301 && statusCode != 302
    case Ssl(mode) => mode !in SslModes
    case _ => false
  }

  /** The id each setter passes to `addAction`. */
  function SettingId(s: Setting): string {
    match s
    case AlwaysUseHttps(_) => "always_use_https"
    case AutomaticHttpsRewrites(_) => "automatic_https_rewrites"
    case BrowserCacheTtl(_) => "browser_cache_ttl"
    case BrowserIntegrityCheck(_) => "browser_check"
    case BypassCacheOnCookie(_) => "bypass_cache_on_cookie"
    case CacheByDeviceType(_) => "cache_by_device_type"
    case CacheKey(_) => "cache_key"
    case CacheLevel(_) => "cache_level"
    case CacheOnCookie(_) => "cache_on_cookie"
    case DisableApps(_) => "disable_apps"
    case DisablePerformance(_) => "disable_performance"
    case DisableZaraz(_) => "disable_zaraz"
    case EdgeCacheTtl(_) => "edge_cache_ttl"
    case EmailObfuscation(_) => "disable_security"
    case ForwardingUrl(_, _) => "forwarding_url"
    case HostHeaderOverride(_) => "host_header_override"
    case IpGeolocationHeader(_) => "ip_geolocation"
    case Mirage(_) => "mirage"
    case OpportunisticEncryption(_) => "opportunistic_encryption"
    case OriginCacheControl(_) => "explicit_cache_control"
    case DisableSecurity(_) => "disable_security"
    case OriginErrorPagePassThru(_) => "origin_error_page_pass_thru"
    case QueryStringSort(_) => "sort_query_string_for_cache"
    case ResolveOverride(_) => "resolve_override"
    case RespectStrongEtag(_) => "respect_strong_etag"
    case ResponseBuffering(_) => "response_buffering"
    case RocketLoader(_) => "rocket_loader"
    case Ssl(_) => "ssl"
    case TrueClientIpHeader(_) => "true_client_ip_header"
    case Waf(_) => "waf"
  }

  /** The value each setter passes to `addAction`, before `transformValue`. */
  function SettingValue(s: Setting): Value {
    match s
    case BrowserCacheTtl(ttl) => Int(ttl)
    case BypassCacheOnCookie(cookie) => Str(cookie)
    case CacheKey(key) => Str(key)
    case CacheLevel(level) => Str(level)
    case CacheOnCookie(cookie) => Str(cookie)
    case EdgeCacheTtl(ttl) => Int(ttl)
    case ForwardingUrl(url, statusCode) => Map([("status_code", Int(statusCode)), ("url", Str(url))])
    case HostHeaderOverride(host) => Str(host)
    case ResolveOverride(origin) => Str(origin)
    case Ssl(mode) => Str(mode)
    case _ => Bool(s.on)
  }

  /** The message of the ConfigurationException a validating setter raises. */
  function RejectionMessage(s: Setting): string {
    match s
    case CacheLevel(_) => "Invalid cache level"
    case EdgeCacheTtl(_) => "Edge Cache TTL too high."
    case ForwardingUrl(_, _) => "Status Codes can only be 301 or 302."
    case Ssl(_) => "Can only be set to off, flexible, full, strict, origin_pull."
    case _ => "Invalid cookie string."
  }

  /**
   * What a setter hands to `addAction` (its fixed id and its argument), or
   * the exception its validator raises.
   */
  function SettingAction(s: Setting): (r: Result<(string, Value)>)
    ensures r.Err? <==> Rejected(s)
    ensures r.Err? ==> r.error.ConfigurationError?
    ensures r.Ok? ==> r.value.0 == SettingId(s)
  {
    if Rejected(s) then Err(ConfigurationError(RejectionMessage(s)))
    else Ok((SettingId(s), SettingValue(s)))
  }

  /** The action list after a setter: the upsert of its transformed value, or unchanged with the exception. */
  function ApplySetting(actions: seq<(string, Value)>, s: Setting): (r: Result<seq<(string, Value)>>)
    ensures r.Err? <==> Rejected(s)
    ensures r.Ok? ==> Find(r.value, SettingAction(s).value.0) == Some(TransformValue(SettingAction(s).value.1))
    ensures r.Ok? && Unique(Keys(actions)) ==> Unique(Keys(r.value))
    ensures r.Ok? ==> Keys(r.value) == if SettingId(s) in Keys(actions) then Keys(actions) else Keys(actions) + [SettingId(s)]
    ensures r.Ok? ==> forall i :: 0 <= i < |actions| && actions[i].0 != SettingId(s) ==> r.value[i] == actions[i]
    ensures r.Ok? ==> forall k :: k != SettingId(s) ==> Find(r.value, k) == Find(actions, k)
  {
    match SettingAction(s)
    case Err(e) => Err(e)
    case Ok((id, value)) =>
      UpsertLookup(actions, id, TransformValue(value));
      UpsertKeys(actions, id, TransformValue(value));
      forall k | k != id
        ensures Find(Upsert(actions, id, TransformValue(value)), k) == Find(actions, k)
      {
        UpsertFindOther(actions, id, TransformValue(value), k);
      }
      Ok(Upsert(actions, id, TransformValue(value)))
  }

  /** Each action as the `{id, value}` array it is stored as. */
  function ActionEntries(actions: seq<(string, Value)>): (r: seq<Value>)
    ensures |r| == |actions|
    ensures forall i :: 0 <= i < |actions| ==> r[i] == Map([("id", Str(actions[i].0)), ("value", actions[i].1)])
  {
    seq(|actions|, i requires 0 <= i < |actions| => Map([("id", Str(actions[i].0)), ("value", actions[i].1)]))
  }

  /** `toArray()`: one url/matches target, the actions, then `status` and `priority` when set. */
  function SerializePageRule(target: string, actions: seq<(string, Value)>, status: Option<bool>, priority: Option<int>): (r: Value)
    ensures r.Map? && |r.entries| >= 2
    ensures Keys(r.entries) == ["targets", "actions"]
      + (if status.Some? then ["status"] else []) + (if priority.Some? then ["priority"] else [])
    ensures r.entries[0].1 == List([Map([
      ("target", Str("url")),
      ("constraint", Map([("operator", Str("matches")), ("value", Str(target))]))])])
    ensures r.entries[1].1 == List(ActionEntries(actions))
  {
    var options := [
      ("targets", List([Map([
        ("target", Str("url")),
        ("constraint", Map([("operator", Str("matches")), ("value", Str(target))]))])])),
      ("actions", List(ActionEntries(actions)))];
    var options := WithOptional(options, "status", if status.Some? then Some(Str(if status.value then "active" else "disabled")) else None);
    var options := WithOptional(options, "priority", if priority.Some? then Some(Int(priority.value)) else None);
    Map(options)
  }

  /** A status that is set is sent as "active" or "disabled", and a priority that is set as given. */
  lemma {:induction false} OptionalEntries(target: string, actions: seq<(string, Value)>, status: Option<bool>, priority: Option<int>)
    ensures var e := SerializePageRule(target, actions, status, priority).entries;
      && (status.Some? ==> Find(e, "status") == Some(Str(if status.value then "active" else "disabled")))
      && (priority.Some? ==> Find(e, "priority") == Some(Int(priority.value)))
  {
    var e := SerializePageRule(target, actions, status, priority).entries;
    if status.Some? {
      FirstIndexIs(Keys(e), "status", 2);
    }
    if priority.Some? {
      FirstIndexIs(Keys(e), "priority", |e| - 1);
    }
  }

  /** A status that is set is reported as "active" exactly when it is true. */
  lemma StatusEntry(target: string, actions: seq<(string, Value)>, status: bool, priority: Option<int>)
    ensures SerializePageRule(target, actions, Some(status), priority).entries[2] == ("status", Str(if status then "active" else "disabled"))
  {
  }

  /** The id of each setter: `emailObfuscation` and `disableSecurity` share "disable_security". */
  lemma SharedSecurityId(a: bool, b: bool)
    ensures SettingAction(EmailObfuscation(a)).value.0 == SettingAction(DisableSecurity(b)).value.0 == "disable_security"
  {
  }

  /** So the second of the two overwrites the first in place: one entry remains. */
  lemma {:induction false} SecurityOverwrite(actions: seq<(string, Value)>, a: bool, b: bool)
    ensures ApplySetting(actions, EmailObfuscation(a)).Ok?
    ensures var once := ApplySetting(actions, EmailObfuscation(a)).value;
      ApplySetting(once, DisableSecurity(b)) == ApplySetting(actions, DisableSecurity(b))
  {
    SharedSecurityId(a, b);
    SameSettingTwice(actions, EmailObfuscation(a), DisableSecurity(b));
  }

  /** Setting the same action twice keeps one entry, holding the second value, where the first was. */
  lemma {:induction false} SameSettingTwice(actions: seq<(string, Value)>, s1: Setting, s2: Setting)
    requires ApplySetting(actions, s1).Ok? && !Rejected(s2)
    requires SettingAction(s1).value.0 == SettingAction(s2).value.0
    ensures ApplySetting(ApplySetting(actions, s1).value, s2) == ApplySetting(actions, s2)
  {
    var id := SettingAction(s1).value.0;
    UpsertTwice(actions, id, TransformValue(SettingAction(s1).value.1), TransformValue(SettingAction(s2).value.1));
  }

  /** `disableZaraz(true)` on a new page rule gives exactly one action, `{id: "disable_zaraz", value: "on"}`. */
  lemma ZarazOnNewRule(target: string)
    ensures var actions := ApplySetting([], DisableZaraz(true)).value;
      actions == [("disable_zaraz", Str("on"))]
      && SerializePageRule(target, actions, None, None).entries[1] ==
        ("actions", List([Map([("id", Str("disable_zaraz")), ("value", Str("on"))])]))
  {
    var action := ("disable_zaraz", Str("on"));
    assert SettingAction(DisableZaraz(true)) == Ok(("disable_zaraz", Bool(true)));
    assert Upsert([], action.0, action.1) == [action];
    var entries := ActionEntries([action]);
    assert entries == [Map([("id", Str("disable_zaraz")), ("value", Str("on"))])] by {
      assert |entries| == 1;
    }
    assert Keys(SerializePageRule(target, [action], None, None).entries)[1] == "actions";
  }

  /** A cookie word followed by one newline still passes the check, because of how `$` matches. */
  lemma CookieTrailingNewline(word: string)
    requires IsCookieWord(word)
    ensures MatchesCookiePattern(word + "\n")
    ensures !IsCookieWord(word + "\n")
  {
    var s := word + "\n";
    assert s[..|s| - 1] == word;
    assert !IsCookieChar(s[|s| - 1]);
  }

  /** The edge cache TTL has only an upper bound: zero and negative values are accepted. */
  lemma EdgeCacheTtlBound(ttl: int)
    ensures !Rejected(EdgeCacheTtl(ttl)) <==> ttl <= 2678400
  {
  }

  class PageRule {
    const target: string
    var actions: seq<(string, Value)>
    var priority: Option<int>
    var status: Option<bool>

    /** Action ids are unique. */
    ghost predicate Valid()
      reads this
    {
      Unique(Keys(actions))
    }

    constructor(target: string)
      ensures Valid()
      ensures this.target == target && actions == [] && priority.None? && status.None?
    {
      this.target := target;
      actions := [];
      priority := None;
      status := None;
    }

    method SetStatus(status: bool)
      modifies this
      ensures this.status == Some(status)
      ensures actions == old(actions) && priority == old(priority)
    {
      this.status := Some(status);
    }

    method Enable()
      modifies this
      ensures status == Some(true)
      ensures actions == old(actions) && priority == old(priority)
    {
      SetStatus(true);
    }

    /** `disable()` sets the status to true, like `enable()`. */
    method Disable()
      modifies this
      ensures status == Some(true)
      ensures actions == old(actions) && priority == old(priority)
    {
      SetStatus(true);
    }

    method SetPriority(priority: int)
      modifies this
      ensures this.priority == Some(priority)
      ensures actions == old(actions) && status == old(status)
    {
      this.priority := Some(priority);
    }

    /** `addAction`: replace the entry with this id where it is, or append one. */
    method AddAction(id: string, value: Value)
      requires Valid()
      modifies this
      ensures Valid()
      ensures actions == Upsert(old(actions), id, TransformValue(value))
      ensures priority == old(priority) && status == old(status)
    {
      var index := FindIndex(actions, id);
      var newValue := (id, TransformValue(value));
      UpsertKeys(actions, id, newValue.1);
      if index.Some? {
        actions := actions[index.value := newValue];
      } else {
        actions := actions + [newValue];
      }
    }

    /** Any action setter: validation first, then `addAction`; a rejected argument changes nothing. */
    method Set(setting: Setting) returns (r: Outcome)
      requires Valid()
      modifies this
      ensures Valid()
      ensures r.Pass? <==> !Rejected(setting)
      ensures r.Pass? ==> actions == ApplySetting(old(actions), setting).value
      ensures r.Fail? ==> r.error == SettingAction(setting).error && actions == old(actions)
      ensures priority == old(priority) && status == old(status)
    {
      var action := SettingAction(setting);
      if action.Err? {
        return Fail(action.error);
      }
      AddAction(action.value.0, action.value.1);
      r := Pass;
    }

    function ToArray(): Value
      reads this
    {
      SerializePageRule(target, actions, status, priority)
    }
  }
}
