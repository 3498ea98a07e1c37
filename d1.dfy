/**
 * The request bodies of the D1 database endpoint: `create`, `export` and
 * `import` build a body by inserting optional keys after their guards;
 * `query` and `raw` send one fixed map.
 */
module D1 {
  import opened Php
  import opened Keyed

  /** `create`: `{name}`, with `primary_location_hint` when a location is given. */
  method CreateBody(name: string, location: Option<string> := None) returns (body: seq<(string, Value)>)
    ensures Keys(body) == ["name"] + (if location.Some? then ["primary_location_hint"] else [])
    ensures body[0].1 == Str(name)
    ensures location.Some? ==> body[1].1 == Str(location.value)
  {
    body := [("name", Str(name))];
    if location.Some? {
      body := body + [("primary_location_hint", Str(location.value))];
    }
  }

  /** `export`: the polling output format and the three flags always, `current_bookmark` when given. */
  method ExportBody(currentBookmark: Option<string> := None, noData: bool := false, noSchema: bool := false, tables: seq<Value> := [])
    returns (body: seq<(string, Value)>)
    ensures Keys(body) == ["output_format", "no_data", "no_schema", "tables"]
      + (if currentBookmark.Some? then ["current_bookmark"] else [])
    ensures body[..4] == [("output_format", Str("polling")), ("no_data", Bool(noData)), ("no_schema", Bool(noSchema)), ("tables", List(tables))]
    ensures currentBookmark.Some? ==> body[4].1 == Str(currentBookmark.value)
  {
    body := [
      ("output_format", Str("polling")),
      ("no_data", Bool(noData)),
      ("no_schema", Bool(noSchema)),
      ("tables", List(tables))];
    if currentBookmark.Some? {
      body := body + [("current_bookmark", Str(currentBookmark.value))];
    }
  }

  /** `in_array($action, ['init', 'ingest'])`: both sides are non-numeric strings, so this is string equality. */
  predicate NeedsEtag(action: string) {
    action == "init" || action == "ingest"
  }

  /** The argument `import` reports missing, checked in the order of the source: filename, bookmark, etag. */
  function ImportMissing(action: string, etag: Option<string>, filename: Option<string>, currentBookmark: Option<string>): (r: Option<string>)
    ensures r.None? <==>
      (action == "ingest" ==> filename.Some?) && (action == "poll" ==> currentBookmark.Some?) && (NeedsEtag(action) ==> etag.Some?)
  {
    if action == "ingest" && filename.None? then Some("filename")
    else if action == "poll" && currentBookmark.None? then Some("current_bookmark")
    else if NeedsEtag(action) && etag.None? then Some("etag")
    else None
  }

  /**
   * `import`: fails on the first missing argument the action needs, and
   * otherwise sends the action with exactly the arguments that action uses.
   */
  method ImportBody(action: string := "init", etag: Option<string> := None, filename: Option<string> := None, currentBookmark: Option<string> := None)
    returns (r: Result<seq<(string, Value)>>)
    ensures r.Err? <==> ImportMissing(action, etag, filename, currentBookmark).Some?
    ensures r.Err? ==> r.error == MissingArgument([ImportMissing(action, etag, filename, currentBookmark).value])
    ensures r.Ok? ==>
      Keys(r.value) == ["action"]
        + (if NeedsEtag(action) then ["etag"] else [])
        + (if action == "ingest" then ["filename"] else [])
        + (if action == "poll" then ["current_bookmark"] else [])
    ensures r.Ok? ==> r.value[0].1 == Str(action)
    ensures r.Ok? ==> forall i :: 0 <= i < |r.value| ==>
      r.value[i].1 == (match r.value[i].0
        case "etag" => Str(etag.GetOr(""))
        case "filename" => Str(filename.GetOr(""))
        case "current_bookmark" => Str(currentBookmark.GetOr(""))
        case _ => Str(action))
  {
    var body := [("action", Str(action))];
    if action == "ingest" && filename.None? {
      return Err(MissingArgument(["filename"]));
    }
    if action == "poll" && currentBookmark.None? {
      return Err(MissingArgument(["current_bookmark"]));
    }
    if NeedsEtag(action) && etag.None? {
      return Err(MissingArgument(["etag"]));
    }
    if NeedsEtag(action) {
      body := body + [("etag", Str(etag.value))];
    }
    if action == "ingest" {
      body := body + [("filename", Str(filename.value))];
    }
    if action == "poll" {
      body := body + [("current_bookmark", Str(currentBookmark.value))];
    }
    return Ok(body);
  }

  /** An ingest lacking both the filename and the etag reports the filename. */
  lemma IngestReportsFilenameFirst(currentBookmark: Option<string>)
    ensures ImportMissing("ingest", None, None, currentBookmark) == Some("filename")
  {
  }

  /** An action outside init, ingest and poll needs nothing and is sent alone. */
  lemma UnknownActionNeedsNothing(action: string, etag: Option<string>, filename: Option<string>, currentBookmark: Option<string>)
    requires action != "init" && action != "ingest" && action != "poll"
    ensures ImportMissing(action, etag, filename, currentBookmark).None?
  {
  }

  /** The body `query` and `raw` send: the SQL and its parameters, an empty list by default. */
  function QueryBody(query: string, params: seq<Value> := []): (body: seq<(string, Value)>)
    ensures Keys(body) == ["sql", "params"]
    ensures Find(body, "sql") == Some(Str(query)) && Find(body, "params") == Some(List(params))
  {
    [("sql", Str(query)), ("params", List(params))]
  }

  /** Without parameters, `params` is sent as the empty array, not left out. */
  lemma QueryWithoutParams(query: string)
    ensures Find(QueryBody(query), "params") == Some(List([]))
  {
  }
}
