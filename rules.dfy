/**
 * Ruleset rules: a record of flags and optional metadata set through fluent
 * setters, plus a per-kind action literal and action-parameter payload, and
 * the `toArray` serialisation with its single "Expression is required."
 * error and its rules for omitting keys.
 */
module Rules {
  import opened Php
  import opened Keyed
  import opened Expressions

  /**
   * The rule kinds whose `getActionParameters` has an empty body: PHP raises
   * a TypeError when a `?array` function returns nothing, so these can never
   * be serialised. Only their action literal tells them apart.
   */
  datatype StubKind =
    | Skip | SetCacheSettings | CacheSettings | LogCustomField | ServeError
    | SetConfig | Redirect | Execute | Rewrite | Origin | Score
  {
    function Action(): string {
      match this
      case Skip => "skip"
      case SetCacheSettings => "set_cache_settings"
      case CacheSettings => "set_cache_settings"
      case LogCustomField => "log_custom_field"
      case ServeError => "serve_error"
      case SetConfig => "set_config"
      case Redirect => "redirect"
      case Execute => "execute"
      case Rewrite => "rewrite"
      case Origin => "route"
      case Score => "score"
    }
  }

  /** One variant per concrete rule class, holding what its constructor fixes. */
  datatype RuleKind =
    | Block(content: Value, contentType: string := "application/json", statusCode: int := 400)
    | Compression(algorithm: string)
    | Config
    | Log
    | Challenge
    | JSChallenge
    | ManagedChallenge
    | DDoSDynamic
    | ForceConnectionClose
    | Stub(stub: StubKind)
  {
    /** The `$action` literal of the class. */
    function Action(): string {
      match this
      case Block(_, _, _) => "block"
      case Compression(_) => "compress_response"
      case Config => "set_config"
      case Log => "log"
      case Challenge => "challenge"
      case JSChallenge => "js_challenge"
      case ManagedChallenge => "managed_challenge"
      case DDoSDynamic => "ddos_dynamic"
      case ForceConnectionClose => "force_connection_close"
      case Stub(s) => s.Action()
    }

    /** `getActionParameters()`: a payload, null, or the TypeError of an empty body. */
    function Parameters(): (r: Result<Option<Value>>)
      ensures r.Err? <==> this.Stub?
      ensures r.Ok? && r.value.Some? <==> this.Block? || this.Compression? || this.Config?
    {
      match this
      case Block(content, contentType, statusCode) =>
        Ok(Some(Map([("response", Map([("content", content), ("content_type", Str(contentType)), ("status_code", Int(statusCode))]))])))
      case Compression(algorithm) => Ok(Some(Map([("algorithms", Map([("name", Str(algorithm))]))])))
      case Config => Ok(Some(Map([("ssl", Str("flexible"))])))
      case Stub(_) => Err(TypeError)
      case _ => Ok(None)
    }
  }

  /** Everything `toArray` reads from a rule. */
  datatype RuleState = RuleState(
    kind: RuleKind,
    enabled: bool,
    logging: bool,
    expression: Option<string>,
    id: Option<string>,
    ref: Option<string>,
    description: Option<string>)

  /** A newly constructed rule: disabled, not logging, no expression and no metadata. */
  function Initial(kind: RuleKind): RuleState {
    RuleState(kind, false, false, None, None, None, None)
  }

  /** The `empty($expression)` guard of `toArray`. */
  predicate MissingExpression(expression: Option<string>) {
    expression.None? || Empty(Str(expression.value))
  }

  const ExpressionRequired: string := "Expression is required."

  /**
   * `toArray()`: `action`, `enabled`, `logging.enabled`, `expression`, then
   * `action_parameters`, `description`, `id` and `ref`, each only when not null.
   * The expression check comes before the call to `getActionParameters`.
   */
  function Serialize(st: RuleState): (r: Result<Value>)
    ensures MissingExpression(st.expression) ==> r == Err(ConfigurationError(ExpressionRequired))
    ensures !MissingExpression(st.expression) ==> (r.Err? <==> st.kind.Stub?)
    ensures !MissingExpression(st.expression) && st.kind.Stub? ==> r == Err(TypeError)
    ensures r.Ok? ==> r.value.Map?
  {
    if MissingExpression(st.expression) then Err(ConfigurationError(ExpressionRequired))
    else match st.kind.Parameters()
      case Err(e) => Err(e)
      case Ok(parameters) =>
        var options := [
          ("action", Str(st.kind.Action())),
          ("enabled", Bool(st.enabled)),
          ("logging", Map([("enabled", Bool(st.logging))])),
          ("expression", Str(st.expression.value))];
        var options := WithOptional(options, "action_parameters", parameters);
        var options := WithOptional(options, "description", OptionalStr(st.description));
        var options := WithOptional(options, "id", OptionalStr(st.id));
        var options := WithOptional(options, "ref", OptionalStr(st.ref));
        Ok(Map(options))
  }

  /** The keys `toArray` emits, in order, for a rule in state `st`. */
  function SerializedKeys(st: RuleState): seq<string> {
    ["action", "enabled", "logging", "expression"]
      + (if st.kind.Block? || st.kind.Compression? || st.kind.Config? then ["action_parameters"] else [])
      + (if st.description.Some? then ["description"] else [])
      + (if st.id.Some? then ["id"] else [])
      + (if st.ref.Some? then ["ref"] else [])
  }

  lemma KeysWithOptional(entries: seq<(string, Value)>, key: string, v: Option<Value>)
    ensures Keys(WithOptional(entries, key, v)) == Keys(entries) + (if v.Some? then [key] else [])
  {
  }

  /**
   * A serialised rule always starts with the four fixed keys, in order; the
   * optional keys follow exactly when their source is not null.
   */
  lemma {:induction false} SerializeKeys(st: RuleState)
    requires Serialize(st).Ok?
    ensures Keys(Serialize(st).value.entries) == SerializedKeys(st)
  {
    var parameters := st.kind.Parameters().value;
    var options := [
      ("action", Str(st.kind.Action())),
      ("enabled", Bool(st.enabled)),
      ("logging", Map([("enabled", Bool(st.logging))])),
      ("expression", Str(st.expression.value))];
    assert Keys(options) == ["action", "enabled", "logging", "expression"];
    var o1 := WithOptional(options, "action_parameters", parameters);
    KeysWithOptional(options, "action_parameters", parameters);
    var o2 := WithOptional(o1, "description", OptionalStr(st.description));
    KeysWithOptional(o1, "description", OptionalStr(st.description));
    var o3 := WithOptional(o2, "id", OptionalStr(st.id));
    KeysWithOptional(o2, "id", OptionalStr(st.id));
    var o4 := WithOptional(o3, "ref", OptionalStr(st.ref));
    KeysWithOptional(o3, "ref", OptionalStr(st.ref));
    assert Serialize(st).value.entries == o4;
  }

  /** The four fixed entries carry the action literal, both flags and the stored expression. */
  lemma SerializeFixedEntries(st: RuleState)
    requires Serialize(st).Ok?
    ensures var entries := Serialize(st).value.entries;
      && |entries| >= 4
      && entries[0] == ("action", Str(st.kind.Action()))
      && entries[1] == ("enabled", Bool(st.enabled))
      && entries[2] == ("logging", Map([("enabled", Bool(st.logging))]))
      && entries[3] == ("expression", Str(st.expression.value))
  {
    SerializeKeys(st);
  }

  /** The flags and metadata never decide success: only the expression and the kind do. */
  lemma SerializeSucceeds(st: RuleState)
    ensures Serialize(st).Ok? <==> !MissingExpression(st.expression) && !st.kind.Stub?
  {
  }

  /** Neither "" nor "0" is accepted as an expression, whatever the kind. */
  lemma FalsyExpressions(st: RuleState)
    requires st.expression == Some("") || st.expression == Some("0")
    ensures Serialize(st) == Err(ConfigurationError(ExpressionRequired))
  {
    assert MissingExpression(st.expression);
  }

  /** A BlockRule built with only its content serialises its response with the defaults. */
  lemma BlockDefaults(content: Value)
    ensures Block(content).Parameters() == Ok(Some(Map([("response", Map([
      ("content", content), ("content_type", Str("application/json")), ("status_code", Int(400))]))])))
  {
  }

  /**
   * What a closure handed to `setExpression` is modelled by: the builder calls
   * it makes on the fresh builder it receives, and what it returns.
   */
  datatype ClosureReturn = ReturnsBuilder | ReturnsText(text: string) | ReturnsNothing

  datatype Closure = Closure(body: seq<Call>, result: ClosureReturn)

  /**
   * `(string)$expression($builder)` on a fresh builder: a failing builder
   * call raises; otherwise the string form of what the closure returns (the
   * builder's `build()`, the string itself, or "" for null).
   */
  function ClosureText(c: Closure): (r: Result<string>)
    ensures ApplyAll([], c.body).1.Fail? <==> r.Err?
    ensures r.Err? ==> r.error == ApplyAll([], c.body).1.error
  {
    var (fragments, outcome) := ApplyAll([], c.body);
    if outcome.Fail? then Err(outcome.error)
    else match c.result
      case ReturnsBuilder => Ok(Render(fragments))
      case ReturnsText(s) => Ok(s)
      case ReturnsNothing => Ok("")
  }

  /** A closure's calls on its builder matter only through their exception when it returns something else. */
  lemma ClosureReturnValue(c: Closure)
    requires ApplyAll([], c.body).1.Pass?
    ensures c.result.ReturnsBuilder? ==> ClosureText(c) == Ok(Render(ApplyAll([], c.body).0))
    ensures c.result.ReturnsText? ==> ClosureText(c) == Ok(c.result.text)
    ensures c.result.ReturnsNothing? ==> ClosureText(c) == Ok("")
  {
  }

  /** A closure that returns nothing stores "", which `toArray` then rejects. */
  lemma ClosureReturningNothing(st: RuleState, body: seq<Call>)
    requires ApplyAll([], body).1.Pass?
    ensures var text := ClosureText(Closure(body, ReturnsNothing));
      text == Ok("") && Serialize(st.(expression := Some(text.value))) == Err(ConfigurationError(ExpressionRequired))
  {
    FalsyExpressions(st.(expression := Some("")));
  }

  class Rule {
    const kind: RuleKind
    var enabled: bool
    var logging: bool
    var expression: Option<string>
    var id: Option<string>
    var ref: Option<string>
    var description: Option<string>

    function State(): RuleState
      reads this
    {
      RuleState(kind, enabled, logging, expression, id, ref, description)
    }

    constructor(kind: RuleKind)
      ensures State() == Initial(kind)
    {
      this.kind := kind;
      enabled := false;
      logging := false;
      expression := None;
      id := None;
      ref := None;
      description := None;
    }

    /** `getId()`: the id, or the TypeError of returning null from a `string` method. */
    function GetId(): (r: Result<string>)
      reads this
      ensures r.Ok? <==> id.Some?
      ensures r.Ok? ==> r.value == id.value
      ensures r.Err? ==> r.error == TypeError
    {
      if id.Some? then Ok(id.value) else Err(TypeError)
    }

    method Enable()
      modifies this
      ensures State() == old(State()).(enabled := true)
    {
      enabled := true;
    }

    method Disable()
      modifies this
      ensures State() == old(State()).(enabled := false)
    {
      enabled := false;
    }

    method EnableLogging()
      modifies this
      ensures State() == old(State()).(logging := true)
    {
      logging := true;
    }

    method DisableLogging()
      modifies this
      ensures State() == old(State()).(logging := false)
    {
      logging := false;
    }

    method SetDescription(description: string)
      modifies this
      ensures State() == old(State()).(description := Some(description))
    {
      this.description := Some(description);
    }

    method SetId(id: string)
      modifies this
      ensures State() == old(State()).(id := Some(id))
    {
      this.id := Some(id);
    }

    method SetRef(reference: string)
      modifies this
      ensures State() == old(State()).(ref := Some(reference))
    {
      ref := Some(reference);
    }

    /** `setExpression(string)`. */
    method SetExpression(expression: string)
      modifies this
      ensures State() == old(State()).(expression := Some(expression))
    {
      this.expression := Some(expression);
    }

    /** `setExpression(ExpressionBuilder)`: the builder's text at this moment, not the builder. */
    method SetExpressionFromBuilder(builder: ExpressionBuilder)
      modifies this
      ensures State() == old(State()).(expression := Some(old(builder.Build())))
    {
      expression := Some(builder.Build());
    }

    /** `setExpression(Closure)`: runs the closure on a fresh builder and stores the text of its result. */
    method SetExpressionByClosure(closure: Closure) returns (r: Outcome)
      modifies this
      ensures r.Pass? <==> ClosureText(closure).Ok?
      ensures r.Pass? ==> State() == old(State()).(expression := Some(ClosureText(closure).value))
      ensures r.Fail? ==> r.error == ClosureText(closure).error && State() == old(State())
    {
      var builder := new ExpressionBuilder();
      r := builder.Run(closure.body);
      if r.Fail? {
        return;
      }
      match closure.result {
        case ReturnsBuilder => expression := Some(builder.Build());
        case ReturnsText(s) => expression := Some(s);
        case ReturnsNothing => expression := Some("");
      }
    }

    /** `toArray()` of the rule in its current state. */
    function ToArray(): Result<Value>
      reads this
    {
      Serialize(State())
    }
  }
}
