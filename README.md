# Cloudflare API client for PHP: configuration builders and request bodies

This project models the parts of the PHP Cloudflare client that compute
something rather than perform I/O:

- the **expression builder**, which assembles a Rules Language expression
  from fragments (fields, operators, functions, groups) and formats values;
- the **firewall rules** (block, compression, config, log, challenge and
  the other actions) and their `toArray` serialisation;
- the **ruleset**, with its kind and phase selectors and its ordered rules;
- the **page rule**, **cache purge**, **load balancer** and **Workers
  deployment** configuration builders;
- the **argument checks** shared by the endpoints, and the request bodies of
  the D1, zone lockdown and cron trigger endpoints;
- the **response helpers**: the success test on the status code and the
  dotted-path lookup into the decoded JSON document.

PHP arrays are `Php.Value` trees: lists, and ordered maps kept as key/value
sequences, so key order and key presence can be stated. PHP's `empty()`
is `Php.Empty`. An exception is an `Err`/`Fail` carrying a `Php.Error`.
Objects whose methods update fields become classes whose methods are
proved against a specification function:

- `ExpressionBuilder`, whose methods are proved against `Apply`/`ApplyAll`;
- `Rule`, proved against `RuleState`/`Serialize`;
- `Ruleset`, whose rules are held by reference;
- `PageRule`, `CachePurge`, `LoadBalancer`, `Deployment` and `Response`.

The helper modules model the PHP built-ins the code relies on:

- `Keyed`: `array_search`/`array_column` upserts on ordered maps;
- `Text`: `explode`, `implode`, `trim`, `mb_strtoupper` on ASCII, and integer-to-string conversion;
- `Ip`: the IP literal test behind `FILTER_VALIDATE_IP`.

Where the code and the library's own description differ, the model follows
the code:

- `setExpression` with a closure stores the string form of what the closure
  returns, not the builder the closure configured. A closure that returns
  nothing stores "", which `toArray` then rejects.
- `toArray` of a rule rejects the expression "0" as well as a missing or
  empty one.
- Array values are rendered `{"a" "b"}`, without padding inside the braces.
  Each element is converted to a string first, so an integer element is quoted.
- `BlockRule` needs only its content: the content type and status code have defaults.
- The phase table has 23 entries.
- The rule subclasses with an empty `getActionParameters` (skip, redirect,
  execute and the like) can never be serialised.

## Model

| member | source | states |
|---|---|---|
| Expressions.Dispatch | src/ExpressionBuilder.php:180-196 | the operator a method name reaches, and none for any name that no operator has |
| Expressions.DispatchName | src/ExpressionBuilder.php:359-374 | every operator, alias or logical word, is reached by exactly its own name |
| Expressions.CoerceToString | src/ExpressionBuilder.php:343 | the `fn (string $v)` conversion of the values the model represents: succeeds exactly on strings, integers and booleans; null, arrays and objects without `__toString` raise a TypeError |
| Expressions.FormatString | src/ExpressionBuilder.php:332-338 | a field name or IP literal is kept as it is; any other string is trimmed and put between double quotes |
| Expressions.CoerceAll | src/ExpressionBuilder.php:343 | an array converts iff every element does, element by element, and otherwise fails with a TypeError |
| Expressions.FormatEach | src/ExpressionBuilder.php:343 | each converted element formatted on its own, same length |
| Expressions.FormatValue | src/ExpressionBuilder.php:330-347 | strings as FormatString, integers in decimal, arrays between braces; fails exactly on objects without `__toString` (PHP's Error) and on arrays holding an element that cannot be converted |
| Expressions.FormatStringList | src/ExpressionBuilder.php:340-343 | a list of strings renders as its formatted strings joined by one space inside braces, no padding |
| Expressions.IntegerElement | src/ExpressionBuilder.php:340-343 | an integer array element is converted to its digits before formatting, so `[80]` gives `{"80"}` |
| Expressions.QuotedVerbatim | src/ExpressionBuilder.php:332-338 | the quoted string is not escaped: an inner double quote stays as it is |
| Expressions.Render | src/ExpressionBuilder.php:315-324 | the fragments joined by single spaces, and the outer parentheses dropped exactly when the text starts with "(", ends with ")" and holds one "(" |
| Expressions.LoneGroup | src/ExpressionBuilder.php:315-324 | a lone parenthesised fragment without an inner "(" builds to its inside |
| Expressions.TwoGroupsKept | src/ExpressionBuilder.php:315-324 | two groups keep all their parentheses |
| Expressions.ExpressionFragment | src/ExpressionBuilder.php:234-247 | "field operator value" (no field part for a null field) when operator and value are truthy, otherwise the field alone; a formatting failure propagates |
| Expressions.Apply | src/ExpressionBuilder.php:212-374 | a successful call appends exactly one fragment and keeps the earlier ones |
| Expressions.ApplyAll | src/ExpressionBuilder.php:212-374 | a sequence of calls keeps what earlier calls appended; when no call raises it appends one fragment per call, and after an exception fewer fragments than calls |
| Expressions.ApplyAllAppend | src/ExpressionBuilder.php:212-374 | running calls `a` then `b` is running `b` on what `a` left when `a` passed, and is exactly `a`'s result once `a` raised: the first exception stops the sequence |
| Expressions.FieldStep | src/ExpressionBuilder.php:287-295 | `field(f)` appends `f` iff it is in the table, otherwise raises "Undefined field name" |
| Expressions.FunctionStep | src/ExpressionBuilder.php:263-280 | `addFunction` checks the field and never the function name; it appends `name(field)`, followed by "operator value" only when both are truthy |
| Expressions.ComparisonStep | src/ExpressionBuilder.php:359-374 | an operator call with a truthy value appends "op value" with no field part; with a falsy or missing value it appends "" |
| Expressions.AliasVerbatim | src/ExpressionBuilder.php:180-196 | an alias is written as called: `notEqual(v)` gives "notEqual v", not "ne v" |
| Expressions.LogicalStep | src/ExpressionBuilder.php:359-374 | `not`, `and`, `or` append the bare word whatever the arguments |
| Expressions.UnknownStep | src/ExpressionBuilder.php:359-374 | any other method name raises "Undefined method called" and appends nothing |
| Expressions.WildcardStep | src/ExpressionBuilder.php:303-309 | appends "wildcard p" or "strict wildcard p", or "" when the pattern is empty |
| Expressions.GroupStep | src/ExpressionBuilder.php:212-222 | `group` runs the body on a fresh builder and appends its build in parentheses, or propagates the body's exception |
| Expressions.TrailingSpace | src/ExpressionBuilder.php:234-247 | `field(f)->eq(0)` builds "f " with a trailing space, because 0 is falsy |
| Expressions.FieldComparison | src/ExpressionBuilder.php:287-324 | `field(f)->op(v)` builds "f op v" |
| Expressions.LoneFieldGroup | src/ExpressionBuilder.php:212-324 | a builder holding only `group(field(f))` builds to `f` |
| Expressions.ExpressionBuilder.constructor | src/ExpressionBuilder.php:202 | a new builder has no fragments |
| Expressions.ExpressionBuilder.AddExpression | src/ExpressionBuilder.php:234-247 | the fragments change as Apply says, or not at all on an exception |
| Expressions.ExpressionBuilder.AddFunction | src/ExpressionBuilder.php:263-280 | the fragments change as Apply says, or not at all on an exception |
| Expressions.ExpressionBuilder.Field | src/ExpressionBuilder.php:287-295 | appends `f` iff it is a field name; otherwise fails with "Undefined field name" and changes nothing |
| Expressions.ExpressionBuilder.Wildcard | src/ExpressionBuilder.php:303-309 | the fragments change as Apply says |
| Expressions.ExpressionBuilder.Call | src/ExpressionBuilder.php:359-374 | an unknown name fails and changes nothing; otherwise as Apply says |
| Expressions.ExpressionBuilder.Group | src/ExpressionBuilder.php:212-222 | the fragments change as Apply says for the group |
| Expressions.ExpressionBuilder.Run | src/ExpressionBuilder.php:212-222 | running a closure body leaves exactly the fragments and outcome ApplyAll gives |
| Ip.DottedQuad | src/ExpressionBuilder.php:335 | four octets joined by dots form an IP literal |
| Ip.OctetBounds | src/ExpressionBuilder.php:335 | "0" and "255" are octets; "256" and "01" are not |
| Ip.LoopbackV6 | src/ExpressionBuilder.php:335 | "::1" is an IPv6 literal |
| Ip.PlainWord | src/ExpressionBuilder.php:335 | a word with neither "." nor ":" is not an IP literal, so it gets quoted |
| Rules.RuleKind.Parameters | src/Configurations/Rules/BlockRule.php:30-39 | block, compression and config rules have action parameters, the no-parameter rules have none, and the empty-bodied subclasses raise a TypeError |
| Rules.BlockDefaults | src/Configurations/Rules/BlockRule.php:18-39 | a block rule built with its content alone sends content type "application/json" and status 400 |
| Rules.Serialize | src/Configurations/Rules/Rule.php:172-205 | "Expression is required." when the expression is PHP-empty; otherwise fails exactly for the empty-bodied subclasses; else a map |
| Rules.SerializeKeys | src/Configurations/Rules/Rule.php:179-204 | keys `action`, `enabled`, `logging`, `expression` in order, then `action_parameters`, `description`, `id`, `ref` each only when present |
| Rules.SerializeFixedEntries | src/Configurations/Rules/Rule.php:179-186 | the four fixed entries hold the action literal, the two flags and the stored expression |
| Rules.SerializeSucceeds | src/Configurations/Rules/Rule.php:172-205 | serialisation succeeds iff the expression is not PHP-empty and the kind has a parameters body |
| Rules.FalsyExpressions | src/Configurations/Rules/Rule.php:175-177 | "" and "0" are rejected as expressions |
| Rules.ClosureText | src/Configurations/Rules/Rule.php:157-161 | the closure's builder calls propagate their exception; otherwise the string form of what the closure returns |
| Rules.ClosureReturnValue | src/Configurations/Rules/Rule.php:157-161 | a closure returning the builder stores its build, one returning a string stores it, one returning nothing stores "" |
| Rules.ClosureReturningNothing | src/Configurations/Rules/Rule.php:157-177 | a closure that returns nothing stores "", which toArray rejects |
| Rules.Rule.constructor | src/Configurations/Rules/Rule.php:16-58 | a new rule is disabled, not logging, with no expression, id, ref or description |
| Rules.Rule.GetId | src/Configurations/Rules/Rule.php:64-67 | the id when set; a TypeError when it was never set |
| Rules.Rule.Enable | src/Configurations/Rules/Rule.php:73-78 | sets the enabled flag and nothing else |
| Rules.Rule.Disable | src/Configurations/Rules/Rule.php:84-89 | clears the enabled flag and nothing else |
| Rules.Rule.EnableLogging | src/Configurations/Rules/Rule.php:95-100 | sets the logging flag and nothing else |
| Rules.Rule.DisableLogging | src/Configurations/Rules/Rule.php:106-111 | clears the logging flag and nothing else |
| Rules.Rule.SetDescription | src/Configurations/Rules/Rule.php:118-123 | sets the description and nothing else |
| Rules.Rule.SetId | src/Configurations/Rules/Rule.php:130-135 | sets the id and nothing else |
| Rules.Rule.SetRef | src/Configurations/Rules/Rule.php:142-147 | sets the ref and nothing else |
| Rules.Rule.SetExpression | src/Configurations/Rules/Rule.php:154-168 | a string is stored as it is |
| Rules.Rule.SetExpressionFromBuilder | src/Configurations/Rules/Rule.php:163-165 | a builder is stored as its build at the time of the call |
| Rules.Rule.SetExpressionByClosure | src/Configurations/Rules/Rule.php:157-161 | stores ClosureText on success; on an exception the rule is unchanged |
| Rulesets.SerializeRules | src/Configurations/Ruleset.php:150 | the rules serialise iff each does, in insertion order |
| Rulesets.SerializeRuleset | src/Configurations/Ruleset.php:144-158 | fails iff some rule fails, with that rule's error |
| Rulesets.RulesetKeys | src/Configurations/Ruleset.php:144-158 | keys `name`, `kind`, `phase`, `rules`, then `description` exactly when set |
| Rulesets.FirstFailure | src/Configurations/Ruleset.php:150 | the error of the first failing rule is the one that surfaces |
| Rulesets.OneMissingExpression | src/Configurations/Ruleset.php:150 | one rule without an expression makes the ruleset fail with "Expression is required." |
| Rulesets.Ruleset.constructor | src/Configurations/Ruleset.php:102-106 | a new ruleset has its name and no rules or description |
| Rulesets.Ruleset.SetName | src/Configurations/Ruleset.php:113-118 | sets the name and nothing else |
| Rulesets.Ruleset.SetDescription | src/Configurations/Ruleset.php:125-130 | sets the description and nothing else |
| Rulesets.Ruleset.AddRule | src/Configurations/Ruleset.php:137-142 | appends the rule at the end, duplicates kept |
| Rulesets.Ruleset.Select | src/Configurations/Ruleset.php:160-176 | a phase selector sets the phase, else a kind selector sets the kind, else "Undefined method called" with nothing changed |
| Rulesets.EnableAddedRule | src/Configurations/Ruleset.php:137-142 | a rule changed after `addRule` shows changed at every position it was added |
| Rulesets.MagicTransitSelectors | src/Configurations/Ruleset.php:35-37 | the documented `magicTransit…` selector names fail; `transit` selects `magic_transit` |
| PageRules.TransformValue | src/Configurations/Zones/PageRule.php:452-460 | booleans become "on"/"off", anything else is kept |
| PageRules.SettingAction | src/Configurations/Zones/PageRule.php:82-418 | a setter fails with a configuration error iff its value is rejected, and otherwise names its action id |
| PageRules.ApplySetting | src/Configurations/Zones/PageRule.php:426-445 | a rejected value fails; otherwise the setter's id then holds the transformed value, an existing id keeps its position, a new one is appended, every other action keeps its value and position, and ids stay unique |
| PageRules.SerializePageRule | src/Configurations/Zones/PageRule.php:465-489 | `targets` holds the one url/matches target with the constructor's target, `actions` holds every action as `{id, value}` in order, then `status` and `priority` keys exactly when set |
| PageRules.OptionalEntries | src/Configurations/Zones/PageRule.php:480-486 | a set status is sent as "active" or "disabled" and a set priority as given |
| PageRules.StatusEntry | src/Configurations/Zones/PageRule.php:480-482 | a set status is sent as "active" or "disabled" |
| PageRules.SharedSecurityId | src/Configurations/Zones/PageRule.php:240-243 | `emailObfuscation` and `disableSecurity` both write the id "disable_security" |
| PageRules.SecurityOverwrite | src/Configurations/Zones/PageRule.php:240-243 | so the second of them overwrites the first |
| PageRules.SameSettingTwice | src/Configurations/Zones/PageRule.php:426-445 | setting the same action twice keeps one entry holding the second value |
| PageRules.ZarazOnNewRule | src/Configurations/Zones/PageRule.php:215-218 | `disableZaraz(true)` on a new page rule gives one action `{id: "disable_zaraz", value: "on"}` |
| PageRules.CookieTrailingNewline | src/Configurations/Zones/PageRule.php:123-130 | a cookie word followed by one newline passes the pattern check |
| PageRules.EdgeCacheTtlBound | src/Configurations/Zones/PageRule.php:226-233 | the edge cache TTL is accepted iff it is at most 2678400; there is no lower bound |
| PageRules.PageRule.constructor | src/Configurations/Zones/PageRule.php:28-32 | a new page rule has its target, no actions, no status and no priority |
| PageRules.PageRule.SetStatus | src/Configurations/Zones/PageRule.php:62-67 | sets the status and nothing else |
| PageRules.PageRule.Enable | src/Configurations/Zones/PageRule.php:39-44 | sets the status to true |
| PageRules.PageRule.Disable | src/Configurations/Zones/PageRule.php:50-55 | also sets the status to true, as the code does |
| PageRules.PageRule.SetPriority | src/Configurations/Zones/PageRule.php:69-74 | sets the priority and nothing else |
| PageRules.PageRule.AddAction | src/Configurations/Zones/PageRule.php:426-445 | replaces the entry with this id in place or appends it; ids stay unique |
| PageRules.PageRule.Set | src/Configurations/Zones/PageRule.php:82-418 | a rejected value fails with its message and changes nothing; otherwise the actions are ApplySetting's |
| CachePurges.FileHeaders | src/Configurations/Zones/CachePurge.php:100-112 | one header per argument given, in order: the device and the language as given, the country upper-cased |
| CachePurges.CountryHeader | src/Configurations/Zones/CachePurge.php:105-107 | the country "de" is sent as "DE" |
| CachePurges.UrlColumn | src/Configurations/Zones/CachePurge.php:119-123 | `array_column`: a value is in the column iff some entry is an array whose `url` key, or an object whose `url` property, is that value; entries without a url add nothing, so the column is never longer than the list |
| CachePurges.AddFile | src/Configurations/Zones/CachePurge.php:119-129 | appends the entry when the url is not in the column, otherwise overwrites the entry at the column position |
| CachePurges.ColumnOfUrlEntries | src/Configurations/Zones/CachePurge.php:119-123 | when every entry has a url, the column lines up with the list |
| CachePurges.AddFileByUrl | src/Configurations/Zones/CachePurge.php:119-129 | with only `{url, headers}` entries, the first entry with that url is replaced |
| CachePurges.ColumnMisalignment | src/Configurations/Zones/CachePurge.php:119-129 | after a plain url, a second advanced entry for a url overwrites the plain url, not the earlier entry for that url |
| CachePurges.ObjectEntryOverwritten | src/Configurations/Zones/CachePurge.php:119-127 | `byFiles([$o])` with `$o->url` equal to `u`, then `byFilesAdvanced(u)`: the object is overwritten, since `array_column` reads object properties |
| CachePurges.AddFileOption | src/Configurations/Zones/CachePurge.php:91-132 | every other option keeps its value and its place; a `files` list becomes AddFile of it, and without one `files` is created at the end as the one-entry list |
| CachePurges.CachePurge.constructor | src/Configurations/Zones/CachePurge.php:9 | a new purge has no options |
| CachePurges.CachePurge.ByTags | src/Configurations/Zones/CachePurge.php:19-26 | replaces all options with the tags |
| CachePurges.CachePurge.ByHosts | src/Configurations/Zones/CachePurge.php:36-43 | replaces all options with the hosts |
| CachePurges.CachePurge.ByPrefixes | src/Configurations/Zones/CachePurge.php:53-60 | replaces all options with the prefixes |
| CachePurges.CachePurge.ByFiles | src/Configurations/Zones/CachePurge.php:71-78 | replaces all options with the files |
| CachePurges.CachePurge.Everything | src/Configurations/Zones/CachePurge.php:138-145 | replaces all options with `purge_everything: true` |
| CachePurges.CachePurge.ByFilesAdvanced | src/Configurations/Zones/CachePurge.php:91-132 | the options become AddFileOption of the old options and the new entry |
| Deployments.VersionEntries | src/Configurations/Workers/Deployment.php:52-55 | each version as its `{version_id, percentage}` array, in order |
| Deployments.SerializeDeployment | src/Configurations/Workers/Deployment.php:69-80 | keys `strategy` ("percentage"), `annotations` holding the message, `versions` holding each version's `{version_id, percentage}` in order |
| Deployments.NoVersions | src/Configurations/Workers/Deployment.php:19 | a new deployment sends an empty `versions` array |
| Deployments.Deployment.constructor | src/Configurations/Workers/Deployment.php:24 | a new deployment has its message and no versions |
| Deployments.Deployment.SetMessage | src/Configurations/Workers/Deployment.php:34-39 | sets the message and nothing else |
| Deployments.Deployment.AddVersion | src/Configurations/Workers/Deployment.php:47-64 | replaces the version with this id in place or appends it; ids stay unique |
| LoadBalancers.SerializeLoadBalancer | src/Configurations/LoadBalancers/LoadBalancer.php:245-262 | the serialisation is an array of exactly eleven entries |
| LoadBalancers.LoadBalancerKeys | src/Configurations/LoadBalancers/LoadBalancer.php:245-262 | exactly the eleven keys, in the code's order |
| LoadBalancers.LoadBalancerFields | src/Configurations/LoadBalancers/LoadBalancer.php:245-262 | each key holds its own field: the failover flag nested as `adaptive_routing.failover_across_pools`, the pool maps, location strategy and random steering as given, the default pools as strings |
| LoadBalancers.UnserialisedFields | src/Configurations/LoadBalancers/LoadBalancer.php:203-262 | session affinity, steering policy and TTL never reach the output |
| LoadBalancers.SerialisationKeepsFields | src/Configurations/LoadBalancers/LoadBalancer.php:245-262 | everything else does: two configurations with the same output agree on every other field |
| LoadBalancers.LoadBalancer.constructor | src/Configurations/LoadBalancers/LoadBalancer.php:13-89 | the three arguments and the defaults |
| LoadBalancers.LoadBalancer.IsProxied | src/Configurations/LoadBalancers/LoadBalancer.php:96-101 | sets that field and nothing else |
| LoadBalancers.LoadBalancer.IsFailoverAcrossPools | src/Configurations/LoadBalancers/LoadBalancer.php:108-113 | sets that field and nothing else |
| LoadBalancers.LoadBalancer.SetCountryPools | src/Configurations/LoadBalancers/LoadBalancer.php:120-125 | replaces the country pools and nothing else |
| LoadBalancers.LoadBalancer.SetPopPools | src/Configurations/LoadBalancers/LoadBalancer.php:132-137 | replaces the PoP pools and nothing else |
| LoadBalancers.LoadBalancer.SetRegionPools | src/Configurations/LoadBalancers/LoadBalancer.php:144-149 | replaces the region pools and nothing else |
| LoadBalancers.LoadBalancer.SetDescription | src/Configurations/LoadBalancers/LoadBalancer.php:156-161 | sets the description and nothing else |
| LoadBalancers.LoadBalancer.SetLocationStrategy | src/Configurations/LoadBalancers/LoadBalancer.php:169-177 | sets `{mode, prefer_ecs}` unchecked, and nothing else |
| LoadBalancers.LoadBalancer.SetRandomSteering | src/Configurations/LoadBalancers/LoadBalancer.php:185-193 | sets `{default_weight, pool_weights}` and nothing else |
| LoadBalancers.LoadBalancer.SetSessionAffinity | src/Configurations/LoadBalancers/LoadBalancer.php:203-208 | sets that field and nothing else |
| LoadBalancers.LoadBalancer.SetSteeringPolicy | src/Configurations/LoadBalancers/LoadBalancer.php:223-228 | sets that field and nothing else |
| LoadBalancers.LoadBalancer.SetTtl | src/Configurations/LoadBalancers/LoadBalancer.php:235-240 | sets the TTL and nothing else |
| Endpoints.FirstMissing | src/Endpoints/AbstractEndpoint.php:56-60 | the first key not given, with every earlier key given; none iff all are given |
| Endpoints.FirstGiven | src/Endpoints/AbstractEndpoint.php:72-76 | the first key given, with no earlier key given; none iff no key is given |
| Endpoints.RequiredParams | src/Endpoints/AbstractEndpoint.php:54-61 | passes iff every key is set and non-empty; otherwise the exception names the whole key list |
| Endpoints.RequiredAnyParams | src/Endpoints/AbstractEndpoint.php:70-79 | passes iff some key is set and non-empty; otherwise the exception names the whole key list |
| Endpoints.NoKeys | src/Endpoints/AbstractEndpoint.php:54-79 | an empty key list always passes `requiredParams` and always fails `requiredAnyParams` |
| Endpoints.EmptyValuesAreMissing | src/Endpoints/AbstractEndpoint.php:57 | null, false, 0, "", "0" and the empty array all count as missing |
| Endpoints.SingleKey | src/Endpoints/AbstractEndpoint.php:54-79 | for one key the two checks agree |
| Endpoints.AllImpliesAny | src/Endpoints/AbstractEndpoint.php:54-79 | a non-empty key list that passes `requiredParams` passes `requiredAnyParams` |
| D1.CreateBody | src/Endpoints/D1.php:36-48 | `{name}`, with `primary_location_hint` only when a location is given |
| D1.ExportBody | src/Endpoints/D1.php:94-114 | `output_format` "polling", `no_data`, `no_schema`, `tables` always, `current_bookmark` only when given |
| D1.ImportMissing | src/Endpoints/D1.php:146-156 | nothing is reported missing iff each argument the action needs is given |
| D1.ImportBody | src/Endpoints/D1.php:133-171 | fails iff an argument is missing, naming the first in source order; otherwise `action`, then `etag` iff init or ingest, `filename` iff ingest, `current_bookmark` iff poll |
| D1.IngestReportsFilenameFirst | src/Endpoints/D1.php:146-156 | an ingest lacking both filename and etag reports the filename |
| D1.UnknownActionNeedsNothing | src/Endpoints/D1.php:142-170 | an unrecognised action needs nothing and is sent alone |
| D1.QueryBody | src/Endpoints/D1.php:185-215 | `query` and `raw` send exactly the keys `sql` and `params`, holding the query unchanged and the parameter list as given |
| D1.QueryWithoutParams | src/Endpoints/D1.php:185-193 | without parameters, `params` is sent as the empty array |
| Lockdowns.Target | src/Endpoints/Zones/Lockdown.php:41 | "ip_range" iff the value contains "/", otherwise "ip" |
| Lockdowns.LockdownBody | src/Endpoints/Zones/Lockdown.php:38-44 | `urls` and `configurations` with the target and the value; `update` (lines 78-84) builds the same body |
| Lockdowns.ValuePassedThrough | src/Endpoints/Zones/Lockdown.php:38-44 | the value is sent unchanged |
| Lockdowns.UncheckedPrefix | src/Endpoints/Zones/Lockdown.php:31-47 | a /8 range, which the documentation forbids, is still sent as an IP range |
| Cron.UpdateBody | src/Endpoints/Workers/Cron.php:36-47 | one `{cron: schedule}` entry per schedule, in order |
| Cron.SchedulesRoundTrip | src/Endpoints/Workers/Cron.php:40-44 | reading the `cron` values back gives the schedules unaltered |
| Responses.ListIndex | src/HttpClient/Response.php:125 | a segment names a list position only in its canonical decimal form |
| Responses.CanonicalDigits | src/HttpClient/Response.php:125 | a digit string without leading zero is the decimal form of its value |
| Responses.ListIndexOf | src/HttpClient/Response.php:125 | the decimal form of every number names that list position |
| Responses.Step | src/HttpClient/Response.php:125-131 | an array takes any present key, even one holding null; a list takes a canonical decimal index inside its bounds and gives that element; an object gives a set, non-null property's value; a scalar nothing |
| Responses.WalkAppend | src/HttpClient/Response.php:114-134 | walking a path in two parts is walking the first, then the second from where it ends |
| Responses.DottedKey | src/HttpClient/Response.php:110-135 | a dotted key looks up its first segment, then the rest of the key in what it found, or gives the default |
| Responses.NullMember | src/HttpClient/Response.php:125-130 | a present null is returned from an array, but the default from an object |
| Responses.Response.constructor | src/HttpClient/Response.php:30-33 | nothing decoded yet |
| Responses.Response.Successful | src/HttpClient/Response.php:90-93 | holds iff the status is exactly 200 |
| Responses.Response.Failed | src/HttpClient/Response.php:100-103 | the negation of `successful()` |
| Responses.CreatedIsFailed | src/HttpClient/Response.php:90-103 | a 201 or 204 response counts as failed |
| Responses.Response.Get | src/HttpClient/Response.php:110-135 | the loop returns the value at the end of the dotted path, or the default as soon as a segment is missing |
| Responses.Response.Json | src/HttpClient/Response.php:52-63 | decodes only when nothing truthy is cached; the whole document without a key, otherwise `get` on it, so the cache never changes a result |

## Left out

- HTTP transport, authentication, retries, `json_decode` and the PSR response
  object are not modelled. A response's status code and its decoded document
  are inputs. The endpoints' URL paths and HTTP calls are left out as well.
- The endpoint classes that only interpolate ids into paths and make one
  call are not part of this model.
- Floats are not modelled. `default_weight` of a load balancer and
  `percentage` of a deployment are integers.
- Deployments.Deployment.AddVersion: `array_search` compares loosely. Version
  ids are compared as strings; PHP would also match numeric ids such as "1"
  and "01".
- CachePurges.AddFile: `array_search` compares loosely. Urls are compared as
  strings.
- LoadBalancers.LoadBalancer.SetRandomSteering: `$defaultWeight` has a
  default of 1 in the code, but it is declared before a required parameter.
  PHP then ignores that default, so the model takes the weight as a plain argument.
- `FILTER_VALIDATE_IP` is a library call. `Ip` models IPv4 dotted-decimal
  without leading zeros and the IPv6 text forms of section 2.2 of RFC 4291.
  A dotted quad may stand for the last two groups. Zone ids and the
  reserved and private range flags are not modelled.
- `mb_strtoupper` is modelled on ASCII letters only. The cookie pattern's
  PCRE regex is modelled as a character-class test plus the final-newline
  rule of `$`.
- PHP method names are case-insensitive. `__call` is reached only by names
  that are not public methods. The model dispatches on exact names.
- A closure handed to `group` or `setExpression` is modelled as the script of
  builder calls it makes, plus what it returns. A closure with any other
  effect is not modelled.
- Lemmas about concrete field names take the name's membership of the field
  table as a precondition, not a literal table lookup, to keep proofs small.
- CachePurges.CachePurge.ByFiles: `byFiles` accepts any PHP array, and the
  model takes a list. A keyed array such as `['a' => 'x']` is not modelled;
  for it `byFilesAdvanced` would add integer key 0 instead of overwriting a
  position.
- Expressions.FormatValue / Expressions.CoerceToString: `Php.Value`'s `Obj`
  stands for an object without `__toString`. Objects that are `Stringable`,
  the expression builder itself among them, are not modelled; PHP converts
  them through `__toString`, both at the top level and as array elements.
  At the top level an object without `__toString` raises PHP's `Error`,
  which the model's `TypeError` stands for together with the engine's TypeError.
- Rule subclasses are one datatype, `Rules.RuleKind`, with one variant per
  action. The stub subclasses are `Stub` variants whose serialisation is a TypeError.
- PHP warnings are not modelled. An example is the warning an operator call
  without arguments raises before it reads null.
- `Response::get`'s null and float segment branches are left out: `explode`
  only ever yields strings.
- `ExpressionBuilder::__toString` is `build()`, modelled as `Render` of the fragments.
