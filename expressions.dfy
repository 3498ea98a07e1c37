/**
 * The rules-language expression builder: an ordered list of rendered
 * fragments that fluent calls append to, a fixed table of field names, the
 * comparison and logical operators reachable through `__call`, the value
 * formatter and `build()`.
 *
 * A PHP closure handed to `group` (or to `Rule::setExpression`) is modelled
 * as the script of builder calls it makes on the fresh builder it receives:
 * a `Call` sequence, which may itself contain nested groups.
 */
module Expressions {
  import opened Php
  import opened Text
  import opened Ip

  /** The number of entries in the field table. */
  const FieldCount: nat := 140

  /** The field table: the names `field` and `addFunction` accept, in the source's order. */
  function FieldAt(i: nat): string
    requires i < FieldCount
  {
    match i
    case 0 => "cf.bot_management.detection_ids"
    case 1 => "cf.bot_management.ja3_hash"
    case 2 => "cf.bot_management.ja4"
    case 3 => "cf.bot_management.js_detection.passed"
    case 4 => "cf.bot_management.score"
    case 5 => "cf.bot_management.static_resource"
    case 6 => "cf.bot_management.verified_bot"
    case 7 => "cf.client.bot"
    case 8 => "cf.colo.name"
    case 9 => "cf.colo.region"
    case 10 => "cf.edge.server_ip"
    case 11 => "cf.edge.server_port"
    case 12 => "cf.hostname.metadata"
    case 13 => "cf.random_seed"
    case 14 => "cf.ray_id"
    case 15 => "cf.response.1xxx_code"
    case 16 => "cf.response.error_type"
    case 17 => "cf.threat_score"
    case 18 => "cf.tls_cipher"
    case 19 => "cf.tls_client_auth.cert_fingerprint_sha1"
    case 20 => "cf.tls_client_auth.cert_fingerprint_sha256"
    case 21 => "cf.tls_client_auth.cert_issuer_dn"
    case 22 => "cf.tls_client_auth.cert_issuer_dn_legacy"
    case 23 => "cf.tls_client_auth.cert_issuer_dn_rfc2253"
    case 24 => "cf.tls_client_auth.cert_issuer_serial"
    case 25 => "cf.tls_client_auth.cert_issuer_ski"
    case 26 => "cf.tls_client_auth.cert_not_after"
    case 27 => "cf.tls_client_auth.cert_not_before"
    case 28 => "cf.tls_client_auth.cert_presented"
    case 29 => "cf.tls_client_auth.cert_revoked"
    case 30 => "cf.tls_client_auth.cert_serial"
    case 31 => "cf.tls_client_auth.cert_ski"
    case 32 => "cf.tls_client_auth.cert_subject_dn_legacy"
    case 33 => "cf.tls_client_auth.cert_subject_dn_rfc2253"
    case 34 => "cf.tls_client_auth.cert_verified"
    case 35 => "cf.tls_client_extensions_sha1"
    case 36 => "cf.tls_client_hello_length"
    case 37 => "cf.tls_client_random"
    case 38 => "cf.tls_version"
    case 39 => "cf.verified_bot_category"
    case 40 => "cf.waf.content_scan.has_failed"
    case 41 => "cf.waf.content_scan.has_malicious_obj"
    case 42 => "cf.waf.content_scan.has_obj"
    case 43 => "cf.waf.content_scan.num_malicious_obj"
    case 44 => "cf.waf.content_scan.num_obj"
    case 45 => "cf.waf.content_scan.obj_results"
    case 46 => "cf.waf.content_scan.obj_sizes"
    case 47 => "cf.waf.content_scan.obj_types"
    case 48 => "cf.waf.score"
    case 49 => "cf.waf.score.class"
    case 50 => "cf.waf.score.rce"
    case 51 => "cf.waf.score.sqli"
    case 52 => "cf.waf.score.xss"
    case 53 => "cf.worker.upstream_zone"
    case 54 => "http.cookie"
    case 55 => "http.host"
    case 56 => "http.referer"
    case 57 => "http.request.accepted_languages"
    case 58 => "http.request.body.form"
    case 59 => "http.request.body.form.names"
    case 60 => "http.request.body.form.values"
    case 61 => "http.request.body.mime"
    case 62 => "http.request.body.raw"
    case 63 => "http.request.body.size"
    case 64 => "http.request.body.truncated"
    case 65 => "http.request.cookies"
    case 66 => "http.request.full_uri"
    case 67 => "http.request.headers"
    case 68 => "http.request.headers.names"
    case 69 => "http.request.headers.truncated"
    case 70 => "http.request.headers.values"
    case 71 => "http.request.method"
    case 72 => "http.request.timestamp.msec"
    case 73 => "http.request.timestamp.sec"
    case 74 => "http.request.uri"
    case 75 => "http.request.uri.args"
    case 76 => "http.request.uri.args.names"
    case 77 => "http.request.uri.args.values"
    case 78 => "http.request.uri.path"
    case 79 => "http.request.uri.path.extension"
    case 80 => "http.request.uri.query"
    case 81 => "http.request.version"
    case 82 => "http.response.code"
    case 83 => "http.response.content_type.media_type"
    case 84 => "http.response.headers"
    case 85 => "http.response.headers.names"
    case 86 => "http.response.headers.values"
    case 87 => "http.user_agent"
    case 88 => "http.x_forwarded_for"
    case 89 => "icmp"
    case 90 => "icmp.code"
    case 91 => "icmp.type"
    case 92 => "ip"
    case 93 => "ip.dst"
    case 94 => "ip.dst.country"
    case 95 => "ip.hdr_len"
    case 96 => "ip.len"
    case 97 => "ip.opt.type"
    case 98 => "ip.proto"
    case 99 => "ip.src"
    case 100 => "ip.src.asnum"
    case 101 => "ip.src.city"
    case 102 => "ip.src.continent"
    case 103 => "ip.src.country"
    case 104 => "ip.src.is_in_european_union"
    case 105 => "ip.src.lat"
    case 106 => "ip.src.lon"
    case 107 => "ip.src.metro_code"
    case 108 => "ip.src.postal_code"
    case 109 => "ip.src.region"
    case 110 => "ip.src.region_code"
    case 111 => "ip.src.subdivision_1_iso_code"
    case 112 => "ip.src.subdivision_2_iso_code"
    case 113 => "ip.src.timezone.name"
    case 114 => "ip.ttl"
    case 115 => "raw.http.request.full_uri"
    case 116 => "raw.http.request.uri"
    case 117 => "raw.http.request.uri.args"
    case 118 => "raw.http.request.uri.args.names"
    case 119 => "raw.http.request.uri.args.values"
    case 120 => "raw.http.request.uri.path"
    case 121 => "raw.http.request.uri.path.extension"
    case 122 => "raw.http.request.uri.query"
    case 123 => "sip"
    case 124 => "ssl"
    case 125 => "tcp"
    case 126 => "tcp.dstport"
    case 127 => "tcp.flags"
    case 128 => "tcp.flags.ack"
    case 129 => "tcp.flags.cwr"
    case 130 => "tcp.flags.ecn"
    case 131 => "tcp.flags.fin"
    case 132 => "tcp.flags.push"
    case 133 => "tcp.flags.reset"
    case 134 => "tcp.flags.syn"
    case 135 => "tcp.flags.urg"
    case 136 => "tcp.srcport"
    case 137 => "udp"
    case 138 => "udp.dstport"
    case 139 => "udp.srcport"
    case _ => ""
  }

  /** `isFieldName`: membership in the field table. */
  predicate IsFieldName(s: string) {
    InFieldTable(s, 0)
  }

  /** `s` occurs in the field table at position `i` or later. */
  predicate InFieldTable(s: string, i: nat)
    decreases FieldCount - i
  {
    i < FieldCount && (FieldAt(i) == s || InFieldTable(s, i + 1))
  }


  /**
   * The method names `__call` accepts: the comparison operators under
   * their short names and their aliases, and the three logical operators.
   */
  datatype Operator =
    | Eq | Equal | Ne | NotEqual | Lt | LessThan | Le | LessThanOrEqual
    | Gt | GreaterThan | Ge | GreaterThanOrEqual | Contains | Matches | In
    | Not | And | Or
  {
    /** The method name, which is also the word written into the expression. */
    function Name(): string {
      match this
      case Eq => "eq"
      case Equal => "equal"
      case Ne => "ne"
      case NotEqual => "notEqual"
      case Lt => "lt"
      case LessThan => "lessThan"
      case Le => "le"
      case LessThanOrEqual => "lessThanOrEqual"
      case Gt => "gt"
      case GreaterThan => "greaterThan"
      case Ge => "ge"
      case GreaterThanOrEqual => "greaterThanOrEqual"
      case Contains => "contains"
      case Matches => "matches"
      case In => "in"
      case Not => "not"
      case And => "and"
      case Or => "or"
    }

    predicate IsLogical() {
      this == Not || this == And || this == Or
    }
  }

  /** The operator a method name reaches through `__call`, if any. */
  function Dispatch(name: string): (r: Option<Operator>)
    ensures r.Some? ==> r.value.Name() == name
    ensures r.None? ==> forall op: Operator :: op.Name() != name
  {
    match name
    case "eq" => Some(Eq)
    case "equal" => Some(Equal)
    case "ne" => Some(Ne)
    case "notEqual" => Some(NotEqual)
    case "lt" => Some(Lt)
    case "lessThan" => Some(LessThan)
    case "le" => Some(Le)
    case "lessThanOrEqual" => Some(LessThanOrEqual)
    case "gt" => Some(Gt)
    case "greaterThan" => Some(GreaterThan)
    case "ge" => Some(Ge)
    case "greaterThanOrEqual" => Some(GreaterThanOrEqual)
    case "contains" => Some(Contains)
    case "matches" => Some(Matches)
    case "in" => Some(In)
    case "not" => Some(Not)
    case "and" => Some(And)
    case "or" => Some(Or)
    case _ => None
  }

  /** Every operator is reached by its own name and by no other. */
  lemma DispatchName(op: Operator)
    ensures Dispatch(op.Name()) == Some(op)
  {
  }

  /**
   * PHP's conversion of an argument to a `string` parameter outside strict
   * mode (the `fn (string $v)` callback of `formatValue`): integers become
   * their decimal form, true becomes "1" and false "", while null, arrays and
   * objects without `__toString` raise a TypeError.
   */
  function CoerceToString(v: Value): (r: Result<string>)
    ensures r.Ok? <==> v.Str? || v.Int? || v.Bool?
    ensures v.Str? ==> r == Ok(v.s)
    ensures r.Err? ==> r.error == TypeError
  {
    match v
    case Str(s) => Ok(s)
    case Int(i) => Ok(IntToString(i))
    case Bool(b) => Ok(if b then "1" else "")
    case _ => Err(TypeError)
  }

  /** `formatValue` on a string: field names and IP literals as they are, anything else trimmed and quoted. */
  function FormatString(s: string): (r: string)
    ensures IsFieldName(s) || IsIpLiteral(s) ==> r == s
    ensures !(IsFieldName(s) || IsIpLiteral(s)) ==>
      |r| >= 2 && r[0] == '"' && r[|r| - 1] == '"' && r[1..|r| - 1] == Trim(s)
  {
    if IsFieldName(s) || IsIpLiteral(s) then s else "\"" + Trim(s) + "\""
  }

  /** The values of an ordered map, in order. */
  function Values(entries: seq<(string, Value)>): (vs: seq<Value>)
    ensures |vs| == |entries|
    ensures forall i :: 0 <= i < |entries| ==> vs[i] == entries[i].1
  {
    seq(|entries|, i requires 0 <= i < |entries| => entries[i].1)
  }

  /** The elements of an array, each coerced to a string; the first that cannot be coerced fails. */
  function CoerceAll(items: seq<Value>): (r: Result<seq<string>>)
    ensures r.Ok? <==> forall i :: 0 <= i < |items| ==> CoerceToString(items[i]).Ok?
    ensures r.Ok? ==> |r.value| == |items|
    ensures r.Ok? ==> forall i :: 0 <= i < |items| ==> r.value[i] == CoerceToString(items[i]).value
    ensures r.Err? ==> r.error == TypeError
  {
    if items == [] then Ok([])
    else match CoerceToString(items[0])
      case Err(e) => Err(e)
      case Ok(s) =>
        match CoerceAll(items[1..])
        case Err(e) => Err(e)
        case Ok(rest) => Ok([s] + rest)
  }

  /** Each string of a list formatted on its own. */
  function FormatEach(ss: seq<string>): (r: seq<string>)
    ensures |r| == |ss|
    ensures forall i :: 0 <= i < |ss| ==> r[i] == FormatString(ss[i])
  {
    seq(|ss|, i requires 0 <= i < |ss| => FormatString(ss[i]))
  }

  /** An array rendered as its coerced, formatted elements between braces, separated by single spaces. */
  function Braces(items: seq<Value>): Result<string> {
    match CoerceAll(items)
    case Ok(ss) => Ok("{" + Join(FormatEach(ss), " ") + "}")
    case Err(e) => Err(e)
  }

  /**
   * `formatValue`: strings as `FormatString`, arrays element by element
   * between braces, other scalars in their string form. An object (`Obj`
   * has no `__toString`) cannot be converted to a string.
   */
  function FormatValue(v: Value): (r: Result<string>)
    ensures v.Str? ==> r == Ok(FormatString(v.s))
    ensures r.Err? <==> v.Obj? || (v.List? && CoerceAll(v.items).Err?) || (v.Map? && CoerceAll(Values(v.entries)).Err?)
    ensures r.Ok? && (v.List? || v.Map?) ==> |r.value| >= 2 && r.value[0] == '{' && r.value[|r.value| - 1] == '}'
    ensures v.Int? ==> r == Ok(IntToString(v.i))
  {
    match v
    case Str(s) => Ok(FormatString(s))
    case List(items) => Braces(items)
    case Map(entries) => Braces(Values(entries))
    case Int(i) => Ok(IntToString(i))
    case Bool(b) => Ok(if b then "1" else "")
    case Null => Ok("")
    case Obj(_) => Err(TypeError)
  }

  /** A list of strings renders as its formatted elements joined by single spaces, with no padding inside the braces. */
  lemma FormatStringList(items: seq<string>)
    ensures FormatValue(List(seq(|items|, i requires 0 <= i < |items| => Str(items[i]))))
      == Ok("{" + Join(FormatEach(items), " ") + "}")
  {
    var vs := seq(|items|, i requires 0 <= i < |items| => Str(items[i]));
    var r := CoerceAll(vs);
    assert r.Ok?;
    assert r.value == items;
  }

  /**
   * An integer element is coerced to its decimal string before it is
   * formatted, so unless the digits name a field it comes out quoted: [80]
   * gives {"80"}.
   */
  lemma IntegerElement(n: int)
    ensures FormatValue(List([Int(n)])) == Ok("{" + FormatString(IntToString(n)) + "}")
    ensures !IsIpLiteral(IntToString(n))
  {
    var s := IntToString(n);
    var items := [Int(n)];
    assert CoerceToString(items[0]) == Ok(s);
    var r := CoerceAll(items);
    assert r.Ok? && |r.value| == 1;
    assert r.value == [s];
    assert Join(FormatEach([s]), " ") == FormatString(s);
    assert forall i :: 0 <= i < |s| ==> IsDigit(s[i]) || s[i] == '-';
    PlainWord(s);
  }

  /** The characters inside the quotes are the trimmed string as it is: a double quote in it is not escaped. */
  lemma QuotedVerbatim(s: string)
    requires !IsFieldName(s) && !IsIpLiteral(s)
    requires s == Trim(s)
    ensures FormatString(s) == "\"" + s + "\""
  {
  }

  /** Whether `build` strips the outer pair: the joined text starts with "(", ends with ")" and holds exactly one "(". */
  predicate StripsOuterPair(j: string) {
    |j| >= 2 && j[0] == '(' && j[|j| - 1] == ')' && Count(j, '(') == 1
  }

  /**
   * `build()`: the fragments joined by single spaces; when the heuristic
   * fires, the outer pair of parentheses is dropped, and what is left has no
   * "(" at all.
   */
  function Render(fragments: seq<string>): (r: string)
    ensures var j := Join(fragments, " ");
      StripsOuterPair(j) ==> j == "(" + r + ")" && '(' !in r
    ensures var j := Join(fragments, " ");
      !StripsOuterPair(j) ==> r == j
  {
    var j := Join(fragments, " ");
    if StripsOuterPair(j) then
      assert '(' !in j[1..] by {
        CountZero(j[1..], '(');
      }
      assert j == "(" + j[1..|j| - 1] + ")";
      j[1..|j| - 1]
    else j
  }

  /** A lone parenthesised fragment without an inner "(" builds to its inside: a lone `group(ssl)` gives "ssl". */
  lemma LoneGroup(inner: string)
    requires '(' !in inner
    ensures Render(["(" + inner + ")"]) == inner
  {
    var j := "(" + inner + ")";
    assert Join([j], " ") == j;
    CountZero(inner, '(');
    CountAppend("(" + inner, ")", '(');
    CountAppend("(", inner, '(');
    assert Count(")", '(') == 0 && Count("(", '(') == 1;
    assert j[1..|j| - 1] == inner;
  }

  /** Two groups side by side keep all their parentheses: the heuristic only fires on a single "(". */
  lemma TwoGroupsKept(a: string, op: string, b: string)
    ensures var fragments := ["(" + a + ")", op, "(" + b + ")"];
      Render(fragments) == Join(fragments, " ")
  {
    var x := "(" + a + ")";
    var y := "(" + b + ")";
    var fragments := [x, op, y];
    var rest := op + " " + y;
    assert Join(fragments, " ") == x + (" " + rest) by {
      assert [op, y][1..] == [y];
      assert Join([op, y], " ") == rest;
      assert fragments[1..] == [op, y];
      assert Join(fragments, " ") == x + " " + rest;
    }
    CountAppend(x, " " + rest, '(');
    CountAppend(" " + op + " ", y, '(');
    assert " " + rest == " " + op + " " + y;
    assert x[0] == '(' && y[0] == '(';
  }

  /**
   * A call the fluent interface accepts. A closure passed to `group` (or to
   * `Rule::setExpression`) is modelled by the calls it makes on the fresh
   * builder it is given.
   */
  datatype Call =
    | FieldCall(f: string)
    | AddExpressionCall(exprField: Option<string>, exprOperator: Option<string>, exprValue: Value)
    | AddFunctionCall(functionName: string, fnField: string, fnOperator: Option<string>, fnValue: Value)
    | WildcardCall(pattern: string, strict: bool)
    | MagicCall(methodName: string, arguments: seq<Value>)
    | GroupCall(body: seq<Call>)

  /**
   * The fragment `addExpression` appends: "field operator value" (no field
   * part when the field is null) when both operator and value are truthy,
   * otherwise the field alone, a null field rendering as "".
   */
  function ExpressionFragment(field: Option<string>, operator: Option<string>, value: Value): (r: Result<string>)
    ensures !(TruthyString(operator) && !Empty(value)) ==> r == Ok(field.GetOr(""))
    ensures TruthyString(operator) && !Empty(value) ==> (r.Ok? <==> FormatValue(value).Ok?)
    ensures TruthyString(operator) && !Empty(value) && r.Ok? && field.None? ==>
      r.value == operator.value + " " + FormatValue(value).value
    ensures TruthyString(operator) && !Empty(value) && r.Ok? && field.Some? ==>
      r.value == field.value + " " + (operator.value + " " + FormatValue(value).value)
    ensures r.Err? ==> r == Err(TypeError)
  {
    if TruthyString(operator) && !Empty(value) then
      match FormatValue(value)
      case Ok(fv) =>
        var comparison := operator.value + " " + fv;
        Ok(if field.Some? then field.value + " " + comparison else comparison)
      case Err(e) => Err(e)
    else Ok(field.GetOr(""))
  }

  /** The fragment `addFunction` appends: "name(field)", followed by "operator value" when both are truthy. */
  function FunctionFragment(name: string, field: string, operator: Option<string>, value: Value): Result<string> {
    if !IsFieldName(field) then Err(UndefinedFieldName(field))
    else if TruthyString(operator) && !Empty(value) then
      match FormatValue(value)
      case Ok(fv) => Ok(name + "(" + field + ") " + operator.value + " " + fv)
      case Err(e) => Err(e)
    else Ok(name + "(" + field + ")")
  }

  function WildcardOperator(strict: bool): string {
    if strict then "strict wildcard" else "wildcard"
  }

  /** The argument an operator call reads: the first one, or null (with a PHP warning) when there is none. */
  function FirstArgument(arguments: seq<Value>): Value {
    if |arguments| > 0 then arguments[0] else Null
  }

  /** The fragment `__call` appends for a method name. */
  function CallFragment(name: string, arguments: seq<Value>): Result<string> {
    match Dispatch(name)
    case None => Err(UndefinedMethod(name))
    case Some(op) =>
      if op.IsLogical() then ExpressionFragment(Some(name), None, Null)
      else ExpressionFragment(None, Some(name), FirstArgument(arguments))
  }

  function Append(fragments: seq<string>, fragment: Result<string>): Result<seq<string>> {
    match fragment
    case Ok(x) => Ok(fragments + [x])
    case Err(e) => Err(e)
  }

  /** The fragments after one call, or the exception it raises (the fragments are then left as they were). */
  function Apply(fragments: seq<string>, c: Call): (r: Result<seq<string>>)
    ensures r.Ok? ==> |r.value| == |fragments| + 1 && r.value[..|fragments|] == fragments
    decreases c
  {
    match c
    case FieldCall(f) =>
      if IsFieldName(f) then Append(fragments, ExpressionFragment(Some(f), None, Null))
      else Err(UndefinedFieldName(f))
    case AddExpressionCall(f, o, v) => Append(fragments, ExpressionFragment(f, o, v))
    case AddFunctionCall(n, f, o, v) => Append(fragments, FunctionFragment(n, f, o, v))
    case WildcardCall(p, strict) => Append(fragments, ExpressionFragment(None, Some(WildcardOperator(strict)), Str(p)))
    case MagicCall(n, args) => Append(fragments, CallFragment(n, args))
    case GroupCall(body) =>
      var (inner, outcome) := ApplyAll([], body);
      if outcome.Fail? then Err(outcome.error)
      else Ok(fragments + ["(" + Render(inner) + ")"])
  }

  /**
   * A sequence of calls: each succeeding call appends exactly one fragment;
   * the first exception stops the sequence and what earlier calls appended
   * stays.
   */
  function ApplyAll(fragments: seq<string>, calls: seq<Call>): (r: (seq<string>, Outcome))
    ensures |fragments| <= |r.0| && r.0[..|fragments|] == fragments
    ensures r.1.Pass? ==> |r.0| == |fragments| + |calls|
    ensures r.1.Fail? ==> |r.0| < |fragments| + |calls|
    decreases calls
  {
    if calls == [] then (fragments, Pass)
    else match Apply(fragments, calls[0])
      case Err(e) => (fragments, Fail(e))
      case Ok(next) =>
        var r := ApplyAll(next, calls[1..]);
        assert r.0[..|fragments|] == next[..|fragments|];
        r
  }

  /** `field(f)` appends `f` iff it is in the table, and otherwise raises "Undefined field name". */
  lemma FieldStep(fragments: seq<string>, f: string)
    ensures Apply(fragments, FieldCall(f)) == if IsFieldName(f) then Ok(fragments + [f]) else Err(UndefinedFieldName(f))
  {
  }

  /**
   * `addFunction` checks the field against the table but never the function
   * name; it appends "name(field)", followed by "operator value" only when
   * both are truthy.
   */
  lemma FunctionStep(fragments: seq<string>, name: string, f: string, operator: Option<string>, value: Value)
    ensures !IsFieldName(f) ==> Apply(fragments, AddFunctionCall(name, f, operator, value)) == Err(UndefinedFieldName(f))
    ensures IsFieldName(f) && !(TruthyString(operator) && !Empty(value)) ==>
      Apply(fragments, AddFunctionCall(name, f, operator, value)) == Ok(fragments + [name + "(" + f + ")"])
    ensures IsFieldName(f) && TruthyString(operator) && !Empty(value) && FormatValue(value).Ok? ==>
      Apply(fragments, AddFunctionCall(name, f, operator, value))
        == Ok(fragments + [name + "(" + f + ") " + operator.value + " " + FormatValue(value).value])
  {
  }

  /**
   * A comparison call `op(v)` with a truthy `v` appends the method name and
   * the formatted value, with no field part; with a falsy or missing `v` it
   * appends the null field, which renders as "".
   */
  lemma ComparisonStep(fragments: seq<string>, op: Operator, v: Value)
    requires !op.IsLogical()
    ensures !Empty(v) && FormatValue(v).Ok? ==>
      Apply(fragments, MagicCall(op.Name(), [v])) == Ok(fragments + [op.Name() + " " + FormatValue(v).value])
    ensures Empty(v) ==> Apply(fragments, MagicCall(op.Name(), [v])) == Ok(fragments + [""])
    ensures Apply(fragments, MagicCall(op.Name(), [])) == Ok(fragments + [""])
  {
    DispatchName(op);
    assert TruthyString(Some(op.Name()));
  }

  /** An alias is written as it was called: `notEqual(v)` gives "notEqual v", not "ne v". */
  lemma AliasVerbatim(v: Value)
    requires !Empty(v) && FormatValue(v).Ok?
    ensures Apply([], MagicCall("notEqual", [v])) == Ok(["notEqual " + FormatValue(v).value])
  {
    assert NotEqual.Name() + " " == "notEqual ";
    ComparisonStep([], NotEqual, v);
    assert [] + ["notEqual " + FormatValue(v).value] == ["notEqual " + FormatValue(v).value];
  }

  /** `not()`, `and()` and `or()` append the bare keyword, whatever the arguments. */
  lemma LogicalStep(fragments: seq<string>, op: Operator, arguments: seq<Value>)
    requires op.IsLogical()
    ensures Apply(fragments, MagicCall(op.Name(), arguments)) == Ok(fragments + [op.Name()])
  {
    DispatchName(op);
  }

  /** Any other method name raises "Undefined method called" and appends nothing. */
  lemma UnknownStep(fragments: seq<string>, name: string, arguments: seq<Value>)
    requires forall op: Operator :: op.Name() != name
    ensures Apply(fragments, MagicCall(name, arguments)) == Err(UndefinedMethod(name))
  {
  }

  /** `wildcard(p, strict)` appends "wildcard p" or "strict wildcard p", or "" when `p` is "" or "0". */
  lemma WildcardStep(fragments: seq<string>, p: string, strict: bool)
    ensures !Empty(Str(p)) ==>
      Apply(fragments, WildcardCall(p, strict)) == Ok(fragments + [WildcardOperator(strict) + " " + FormatString(p)])
    ensures Empty(Str(p)) ==> Apply(fragments, WildcardCall(p, strict)) == Ok(fragments + [""])
  {
    var w := WildcardOperator(strict);
    assert TruthyString(Some(w));
    if !Empty(Str(p)) {
      assert ExpressionFragment(None, Some(w), Str(p)) == Ok(w + " " + FormatString(p));
    } else {
      assert ExpressionFragment(None, Some(w), Str(p)) == Ok("");
    }
  }

  /** `field(f)->eq(0)`: the falsy operand drops operator and value, leaving a trailing space. */
  lemma TrailingSpace(f: string)
    requires IsFieldName(f)
    ensures ApplyAll([], [FieldCall(f), MagicCall("eq", [Int(0)])]) == ([f, ""], Pass)
    ensures Render([f, ""]) == f + " "
  {
    var c1, c2 := FieldCall(f), MagicCall("eq", [Int(0)]);
    assert Apply([], c1) == Ok([f]) by {
      FieldStep([], f);
      assert [] + [f] == [f];
    }
    assert Apply([f], c2) == Ok([f, ""]) by {
      ComparisonStep([f], Eq, Int(0));
      assert [f] + [""] == [f, ""];
    }
    ApplyPair([], c1, c2);
    assert Join([f, ""], " ") == f + " " + "" by {
      assert [f, ""][1..] == [""];
    }
    assert (f + " ")[|f + " "| - 1] == ' ';
  }

  /** `field(f)->op(v)` builds "f op v". */
  lemma FieldComparison(f: string, op: Operator, v: Value)
    requires IsFieldName(f) && !op.IsLogical()
    requires f != [] && f[0] != '('
    requires !Empty(v) && FormatValue(v).Ok?
    ensures var r := ApplyAll([], [FieldCall(f), MagicCall(op.Name(), [v])]);
      r.1 == Pass && Render(r.0) == f + " " + (op.Name() + " " + FormatValue(v).value)
  {
    var c1, c2 := FieldCall(f), MagicCall(op.Name(), [v]);
    var x := op.Name() + " " + FormatValue(v).value;
    assert Apply([], c1) == Ok([f]) by {
      FieldStep([], f);
      assert [] + [f] == [f];
    }
    assert Apply([f], c2) == Ok([f, x]) by {
      ComparisonStep([f], op, v);
      assert [f] + [x] == [f, x];
    }
    ApplyPair([], c1, c2);
    RenderPlainPair(f, x);
  }

  /** Two fragments whose text does not open with "(" are joined by one space and kept as they are. */
  lemma RenderPlainPair(a: string, b: string)
    requires a != [] && a[0] != '('
    ensures Render([a, b]) == a + " " + b
  {
    assert Join([a, b], " ") == a + " " + b by {
      assert [a, b][1..] == [b];
    }
    assert (a + " " + b)[0] == a[0];
  }

  /** Two calls in a row: when both succeed, the second works on what the first left. */
  lemma ApplyPair(fragments: seq<string>, c1: Call, c2: Call)
    ensures Apply(fragments, c1).Ok? && Apply(Apply(fragments, c1).value, c2).Ok? ==>
      ApplyAll(fragments, [c1, c2]) == (Apply(Apply(fragments, c1).value, c2).value, Pass)
  {
    var calls := [c1, c2];
    if Apply(fragments, c1).Ok? && Apply(Apply(fragments, c1).value, c2).Ok? {
      var next := Apply(fragments, c1).value;
      var last := Apply(next, c2).value;
      assert calls[0] == c1 && calls[1..] == [c2];
      assert [c2][0] == c2 && [c2][1..] == [];
      assert ApplyAll(last, []) == (last, Pass);
      assert ApplyAll(next, [c2]) == (last, Pass);
    }
  }

  /** A builder holding only `group(fn ($b) => $b->field(f))` builds to `f` itself. */
  lemma LoneFieldGroup(f: string)
    requires IsFieldName(f) && '(' !in f
    ensures var r := ApplyAll([], [GroupCall([FieldCall(f)])]);
      r == (["(" + f + ")"], Pass) && Render(r.0) == f
  {
    var body := [FieldCall(f)];
    assert ApplyAll([], body) == ([f], Pass) by {
      FieldStep([], f);
      assert [] + [f] == [f];
      ApplySingle([], FieldCall(f));
    }
    assert Render([f]) == f by {
      assert Join([f], " ") == f;
      assert f == [] || f[0] != '(' by {
        if f != [] {
          assert f[0] in f;
        }
      }
    }
    assert Apply([], GroupCall(body)) == Ok(["(" + f + ")"]) by {
      GroupStep([], body);
      assert [] + ["(" + f + ")"] == ["(" + f + ")"];
    }
    ApplySingle([], GroupCall(body));
    LoneGroup(f);
  }

  /**
   * Running two sequences of calls one after the other: the second runs on
   * what the first left only when the first passed; once a call raises, no
   * later call runs.
   */
  lemma {:induction false} ApplyAllAppend(fragments: seq<string>, a: seq<Call>, b: seq<Call>)
    ensures ApplyAll(fragments, a + b)
      == if ApplyAll(fragments, a).1.Pass? then ApplyAll(ApplyAll(fragments, a).0, b) else ApplyAll(fragments, a)
    decreases a
  {
    if a == [] {
      assert a + b == b;
    } else {
      assert (a + b)[0] == a[0] && (a + b)[1..] == a[1..] + b;
      match Apply(fragments, a[0])
      case Err(_) =>
      case Ok(next) => ApplyAllAppend(next, a[1..], b);
    }
  }

  /** A single call: its result, or the unchanged fragments and its exception. */
  lemma ApplySingle(fragments: seq<string>, c: Call)
    ensures Apply(fragments, c).Ok? ==> ApplyAll(fragments, [c]) == (Apply(fragments, c).value, Pass)
    ensures Apply(fragments, c).Err? ==> ApplyAll(fragments, [c]) == (fragments, Fail(Apply(fragments, c).error))
  {
    assert [c][0] == c && [c][1..] == [];
  }

  /**
   * `group(fn)` runs the closure's calls on a fresh builder; a failing call
   * propagates its exception, otherwise the built body is appended wrapped
   * in parentheses.
   */
  lemma GroupStep(fragments: seq<string>, body: seq<Call>)
    ensures var r := ApplyAll([], body);
      Apply(fragments, GroupCall(body)) == if r.1.Pass? then Ok(fragments + ["(" + Render(r.0) + ")"]) else Err(r.1.error)
  {
  }

  /** What a builder method does to the fragments: the step's result, or no change and the step's exception. */
  predicate Reflects(before: seq<string>, after: seq<string>, r: Outcome, step: Result<seq<string>>) {
    match step
    case Ok(next) => r == Pass && after == next
    case Err(e) => r == Fail(e) && after == before
  }

  class ExpressionBuilder {
    var fragments: seq<string>

    constructor()
      ensures fragments == []
    {
      fragments := [];
    }

    /** `build()`, and `__toString()` which returns it; it only reads the fragments. */
    function Build(): string
      reads this
    {
      Render(fragments)
    }

    method AddExpression(field: Option<string> := None, operator: Option<string> := None, value: Value := Null)
      returns (r: Outcome)
      modifies this
      ensures Reflects(old(fragments), fragments, r, Apply(old(fragments), AddExpressionCall(field, operator, value)))
    {
      var fragment := ExpressionFragment(field, operator, value);
      if fragment.Ok? {
        fragments := fragments + [fragment.value];
        r := Pass;
      } else {
        r := Fail(fragment.error);
      }
    }

    method AddFunction(name: string, field: string, operator: Option<string> := None, value: Value := Null)
      returns (r: Outcome)
      modifies this
      ensures Reflects(old(fragments), fragments, r, Apply(old(fragments), AddFunctionCall(name, field, operator, value)))
    {
      if !IsFieldName(field) {
        return Fail(UndefinedFieldName(field));
      }
      var fragment := FunctionFragment(name, field, operator, value);
      if fragment.Ok? {
        fragments := fragments + [fragment.value];
        r := Pass;
      } else {
        r := Fail(fragment.error);
      }
    }

    /** `field(f)`: appends `f` as one fragment iff it is in the table, and otherwise changes nothing. */
    method Field(f: string) returns (r: Outcome)
      modifies this
      ensures r.Pass? <==> IsFieldName(f)
      ensures r.Pass? ==> fragments == old(fragments) + [f]
      ensures r.Fail? ==> r.error == UndefinedFieldName(f) && fragments == old(fragments)
      ensures Reflects(old(fragments), fragments, r, Apply(old(fragments), FieldCall(f)))
    {
      if !IsFieldName(f) {
        return Fail(UndefinedFieldName(f));
      }
      r := AddExpression(Some(f));
    }

    method Wildcard(pattern: string, strict: bool) returns (r: Outcome)
      modifies this
      ensures Reflects(old(fragments), fragments, r, Apply(old(fragments), WildcardCall(pattern, strict)))
    {
      r := AddExpression(operator := Some(WildcardOperator(strict)), value := Str(pattern));
    }

    /** `__call(name, arguments)`: an operator by name, or "Undefined method called" with nothing appended. */
    method Call(name: string, arguments: seq<Value>) returns (r: Outcome)
      modifies this
      ensures Dispatch(name).None? ==> r == Fail(UndefinedMethod(name)) && fragments == old(fragments)
      ensures Reflects(old(fragments), fragments, r, Apply(old(fragments), MagicCall(name, arguments)))
    {
      var op := Dispatch(name);
      if op.None? {
        return Fail(UndefinedMethod(name));
      }
      if op.value.IsLogical() {
        r := AddExpression(Some(name));
      } else {
        var value := if |arguments| > 0 then arguments[0] else Null;
        r := AddExpression(operator := Some(name), value := value);
      }
    }

    /** `group(closure)`: runs the closure on a fresh builder and appends that builder's build in parentheses. */
    method Group(body: seq<Call>) returns (r: Outcome)
      modifies this
      ensures Reflects(old(fragments), fragments, r, Apply(old(fragments), GroupCall(body)))
      decreases body, 1
    {
      var inner := new ExpressionBuilder();
      r := inner.Run(body);
      if r.Pass? {
        fragments := fragments + ["(" + inner.Build() + ")"];
      }
    }

    /** Runs the calls of a closure body on this builder, stopping at the first exception. */
    method Run(calls: seq<Call>) returns (r: Outcome)
      modifies this
      ensures (fragments, r) == ApplyAll(old(fragments), calls)
      decreases calls, 0
    {
      var i := 0;
      while i < |calls|
        invariant 0 <= i <= |calls|
        invariant ApplyAll(fragments, calls[i..]) == ApplyAll(old(fragments), calls)
        decreases |calls| - i
      {
        var before := fragments;
        var step := Apply(before, calls[i]);
        assert calls[i..][1..] == calls[i + 1..];
        match calls[i] {
          case FieldCall(f) => r := Field(f);
          case AddExpressionCall(f, o, v) => r := AddExpression(f, o, v);
          case AddFunctionCall(n, f, o, v) => r := AddFunction(n, f, o, v);
          case WildcardCall(p, strict) => r := Wildcard(p, strict);
          case MagicCall(n, args) => r := Call(n, args);
          case GroupCall(body) => r := Group(body);
        }
        if r.Fail? {
          return;
        }
        i := i + 1;
      }
      r := Pass;
    }
  }
}
