/**
 * The body of a zone lockdown rule, the same for `create` and `update`: the
 * urls, and a configuration whose target is an IP range exactly when the
 * value has a "/".
 */
module Lockdowns {
  import opened Php
  import opened Keyed

  /** `str_contains($value, '/') ? 'ip_range' : 'ip'`; the /16 and /24 prefix lengths are not checked. */
  function Target(value: string): (r: string)
    ensures r == "ip_range" <==> '/' in value
    ensures r == "ip" <==> '/' !in value
  {
    if '/' in value then "ip_range" else "ip"
  }

  /** The body `create` and `update` both send. */
  function LockdownBody(value: string, urls: seq<Value>): (body: seq<(string, Value)>)
    ensures Keys(body) == ["urls", "configurations"]
    ensures Find(body, "urls") == Some(List(urls))
    ensures Find(body, "configurations") == Some(Map([("target", Str(Target(value))), ("value", Str(value))]))
  {
    [("urls", List(urls)), ("configurations", Map([("target", Str(Target(value))), ("value", Str(value))]))]
  }

  /** The value is sent unchanged, whatever its target. */
  lemma {:induction false} ValuePassedThrough(value: string, urls: seq<Value>)
    ensures var c := Find(LockdownBody(value, urls), "configurations").value;
      c.Map? && Find(c.entries, "value") == Some(Str(value))
  {
    var c := Find(LockdownBody(value, urls), "configurations").value;
    assert Keys(c.entries) == ["target", "value"];
  }

  /** A prefix length the API refuses still becomes an IP range. */
  lemma UncheckedPrefix()
    ensures Target("192.0.2.0/8") == "ip_range"
    ensures Target("192.0.2.1") == "ip"
  {
    assert "192.0.2.0/8"[9] == '/';
  }
}
