/**
 * A ruleset: a name, an optional description, a kind and a phase chosen by
 * selector methods from two fixed tables, and an ordered list of rules held
 * by reference.
 */
module Rulesets {
  import opened Php
  import opened Keyed
  import opened Rules

  /** The phase table: selector method name to phase, consulted first. */
  function PhaseOf(selector: string): Option<string> {
    match selector
    case "ddosL4" => Some("ddos_l4")
    case "ddosL7" => Some("ddos_l7")
    case "configSettings" => Some("http_config_settings")
    case "customErrors" => Some("http_custom_errors")
    case "logCustomFields" => Some("http_log_custom_fields")
    case "rateLimit" => Some("http_ratelimit")
    case "requestCacheSettings" => Some("http_request_cache_settings")
    case "requestDynamicRedirect" => Some("http_request_dynamic_redirect")
    case "requestFirewallCustom" => Some("http_request_firewall_custom")
    case "requestFirewallManaged" => Some("http_request_firewall_managed")
    case "requestLateTransform" => Some("http_request_late_transform")
    case "requestOrigin" => Some("http_request_origin")
    case "requestRedirect" => Some("http_request_redirect")
    case "requestSanitize" => Some("http_request_sanitize")
    case "requestSbfm" => Some("http_request_sbfm")
    case "requestSelectConfiguration" => Some("http_request_select_configuration")
    case "requestTransform" => Some("http_request_transform")
    case "responseCompression" => Some("http_response_compression")
    case "responseFirewallManaged" => Some("http_response_firewall_managed")
    case "responseHeadersTransform" => Some("http_response_headers_transform")
    case "transit" => Some("magic_transit")
    case "transitIdsManaged" => Some("magic_transit_ids_managed")
    case "transitManaged" => Some("magic_transit_managed")
    case _ => None
  }

  /** The kind table: selector method name to kind. */
  function KindOf(selector: string): Option<string> {
    match selector
    case "managed" => Some("managed")
    case "custom" => Some("custom")
    case "root" => Some("root")
    case "zone" => Some("zone")
    case _ => None
  }

  /**
   * The rules of a ruleset serialised in order; the first rule that fails
   * makes the whole list fail with its exception.
   */
  function SerializeRules(rules: seq<RuleState>): (r: Result<seq<Value>>)
    ensures r.Ok? <==> forall i :: 0 <= i < |rules| ==> Serialize(rules[i]).Ok?
    ensures r.Ok? ==> |r.value| == |rules| && forall i :: 0 <= i < |rules| ==> r.value[i] == Serialize(rules[i]).value
  {
    if rules == [] then Ok([])
    else match Serialize(rules[0])
      case Err(e) => Err(e)
      case Ok(v) =>
        match SerializeRules(rules[1..])
        case Err(e) => Err(e)
        case Ok(vs) => Ok([v] + vs)
  }

  /** Everything `toArray` reads from a ruleset, with each rule's state at that moment. */
  datatype RulesetState = RulesetState(
    name: string,
    kind: string,
    phase: string,
    rules: seq<RuleState>,
    description: Option<string>)

  /** `toArray()`: `name`, `kind`, `phase`, `rules`, then `description` when set. */
  function SerializeRuleset(st: RulesetState): (r: Result<Value>)
    ensures r.Ok? <==> SerializeRules(st.rules).Ok?
    ensures r.Err? ==> r.error == SerializeRules(st.rules).error
  {
    match SerializeRules(st.rules)
    case Err(e) => Err(e)
    case Ok(rules) =>
      Ok(Map(WithOptional([
        ("name", Str(st.name)),
        ("kind", Str(st.kind)),
        ("phase", Str(st.phase)),
        ("rules", List(rules))], "description", OptionalStr(st.description))))
  }

  /** A serialised ruleset always has the four fixed keys in order, and `description` exactly when set. */
  lemma RulesetKeys(st: RulesetState)
    requires SerializeRuleset(st).Ok?
    ensures var entries := SerializeRuleset(st).value.entries;
      && Keys(entries) == ["name", "kind", "phase", "rules"] + (if st.description.Some? then ["description"] else [])
      && entries[0].1 == Str(st.name) && entries[1].1 == Str(st.kind) && entries[2].1 == Str(st.phase)
      && entries[3].1 == List(SerializeRules(st.rules).value)
  {
    var entries := SerializeRuleset(st).value.entries;
    assert entries[..4] == [("name", Str(st.name)), ("kind", Str(st.kind)), ("phase", Str(st.phase)), ("rules", List(SerializeRules(st.rules).value))];
  }

  /** One rule without an expression is enough to make the whole ruleset fail. */
  lemma {:induction false} OneMissingExpression(st: RulesetState, i: nat)
    requires i < |st.rules| && MissingExpression(st.rules[i].expression)
    requires forall j :: 0 <= j < i ==> Serialize(st.rules[j]).Ok?
    ensures SerializeRuleset(st) == Err(ConfigurationError(ExpressionRequired))
  {
    FirstFailure(st.rules, i);
  }

  /** The exception of the first failing rule is the one that surfaces. */
  lemma {:induction false} FirstFailure(rules: seq<RuleState>, i: nat)
    requires i < |rules| && Serialize(rules[i]).Err?
    requires forall j :: 0 <= j < i ==> Serialize(rules[j]).Ok?
    ensures SerializeRules(rules) == Err(Serialize(rules[i]).error)
  {
    if i > 0 {
      FirstFailure(rules[1..], i - 1);
    }
  }

  /** The states of a list of rule objects, read at the same moment. */
  function States(rules: seq<Rule>): (r: seq<RuleState>)
    reads rules
    ensures |r| == |rules| && forall i :: 0 <= i < |rules| ==> r[i] == rules[i].State()
  {
    seq(|rules|, i reads rules requires 0 <= i < |rules| => rules[i].State())
  }

  class Ruleset {
    var name: string
    var kind: string
    var phase: string
    var rules: seq<Rule>
    var description: Option<string>

    /** The ruleset as `toArray` sees it: the rules are read through their references. */
    function State(): RulesetState
      reads this, rules
    {
      RulesetState(name, kind, phase, States(rules), description)
    }

    constructor(name: string)
      ensures this.name == name && kind == "" && phase == "" && rules == [] && description.None?
    {
      this.name := name;
      kind := "";
      phase := "";
      rules := [];
      description := None;
    }

    method SetName(name: string)
      modifies this
      ensures this.name == name
      ensures kind == old(kind) && phase == old(phase) && rules == old(rules) && description == old(description)
    {
      this.name := name;
    }

    method SetDescription(description: string)
      modifies this
      ensures this.description == Some(description)
      ensures name == old(name) && kind == old(kind) && phase == old(phase) && rules == old(rules)
    {
      this.description := Some(description);
    }

    /** `addRule`: appends the reference, duplicates included. */
    method AddRule(rule: Rule)
      modifies this
      ensures rules == old(rules) + [rule]
      ensures name == old(name) && kind == old(kind) && phase == old(phase) && description == old(description)
    {
      rules := rules + [rule];
    }

    /**
     * `__call(name, arguments)`: a phase selector sets the phase, otherwise a
     * kind selector sets the kind; the arguments are ignored, and any other
     * name raises "Undefined method called" and changes nothing.
     */
    method Select(selector: string, arguments: seq<Value>) returns (r: Outcome)
      modifies this
      ensures PhaseOf(selector).Some? ==> r == Pass && phase == PhaseOf(selector).value && kind == old(kind)
      ensures PhaseOf(selector).None? && KindOf(selector).Some? ==> r == Pass && kind == KindOf(selector).value && phase == old(phase)
      ensures PhaseOf(selector).None? && KindOf(selector).None? ==>
        r == Fail(UndefinedMethod(selector)) && kind == old(kind) && phase == old(phase)
      ensures name == old(name) && rules == old(rules) && description == old(description)
    {
      var p := PhaseOf(selector);
      if p.Some? {
        phase := p.value;
        return Pass;
      }
      var k := KindOf(selector);
      if k.Some? {
        kind := k.value;
        return Pass;
      }
      return Fail(UndefinedMethod(selector));
    }

    /** `toArray()` with the rules as they are now, including changes made after `addRule`. */
    function ToArray(): Result<Value>
      reads this, rules
    {
      SerializeRuleset(State())
    }
  }

  /**
   * Rules are held by reference: enabling a rule after `addRule` shows in the
   * ruleset's next `toArray`, at every position the rule was added.
   */
  method EnableAddedRule(ruleset: Ruleset, rule: Rule)
    requires rule in ruleset.rules
    modifies rule
    ensures ruleset.rules == old(ruleset.rules)
    ensures forall j :: 0 <= j < |ruleset.rules| ==>
      ruleset.State().rules[j] == if ruleset.rules[j] == rule then old(rule.State()).(enabled := true) else old(ruleset.State().rules[j])
  {
    rule.Enable();
  }

  /** The names the class documents for the magic-transit phases are not in the table. */
  lemma MagicTransitSelectors()
    ensures PhaseOf("magicTransit").None? && KindOf("magicTransit").None?
    ensures PhaseOf("magicTransitIdsManaged").None? && KindOf("magicTransitIdsManaged").None?
    ensures PhaseOf("magicTransitManaged").None? && KindOf("magicTransitManaged").None?
    ensures PhaseOf("transit") == Some("magic_transit")
  {
  }
}
