/**
 * The body of a zone cache purge: an ordered option map that the `by*`
 * methods and `everything` replace wholesale, and that `byFilesAdvanced`
 * extends with one `{url, headers}` file entry, replacing an earlier entry
 * found by url.
 */
module CachePurges {
  import opened Php
  import opened Text
  import opened Keyed

  /** The request headers of an advanced file entry, each only when its argument is given. */
  function FileHeaders(device: Option<string>, country: Option<string>, language: Option<string>): (r: seq<(string, Value)>)
    ensures Keys(r) == (if device.Some? then ["CF-Device-Type"] else [])
      + (if country.Some? then ["CF-IPCountry"] else [])
      + (if language.Some? then ["accept-language"] else [])
    ensures |r| <= 3
    ensures device.Some? ==> Find(r, "CF-Device-Type") == Some(Str(device.value))
    ensures country.Some? ==> Find(r, "CF-IPCountry") == Some(Str(Upper(country.value)))
    ensures language.Some? ==> Find(r, "accept-language") == Some(Str(language.value))
  {
    var headers := WithOptional([], "CF-Device-Type", OptionalStr(device));
    var headers := WithOptional(headers, "CF-IPCountry", if country.Some? then Some(Str(Upper(country.value))) else None);
    WithOptional(headers, "accept-language", OptionalStr(language))
  }

  function FileEntry(url: string, headers: seq<(string, Value)>): Value {
    Map([("url", Str(url)), ("headers", Map(headers))])
  }

  /**
   * `array_column($files, 'url')`: the url of every entry that is an array
   * holding one or an object with a `url` property, in order; entries
   * without a url (plain strings) are skipped, so positions in the column
   * need not be positions in the list.
   */
  function UrlColumn(files: seq<Value>): (r: seq<Value>)
    ensures |r| <= |files|
    ensures forall x :: x in r <==> exists i :: 0 <= i < |files| && HasUrl(files[i], x)
  {
    if files == [] then []
    else
      var head := if UrlOf(files[0]).Some? then [UrlOf(files[0]).value] else [];
      var rest := UrlColumn(files[1..]);
      assert forall x :: (exists i :: 0 <= i < |files| && HasUrl(files[i], x)) <==>
        HasUrl(files[0], x) || exists i :: 0 <= i < |files[1..]| && HasUrl(files[1..][i], x)
      by {
        forall x, i | 0 < i < |files| && HasUrl(files[i], x)
          ensures HasUrl(files[1..][i - 1], x)
        {
          assert files[1..][i - 1] == files[i];
        }
      }
      head + rest
  }

  /** What `array_column` takes from one entry: an array's `url` key or an object's `url` property. */
  function UrlOf(file: Value): Option<Value> {
    match file
    case Map(entries) => Find(entries, "url")
    case Obj(props) => Find(props, "url")
    case _ => None
  }

  /** The entry is an array or an object whose `url` is `x`. */
  predicate HasUrl(file: Value, x: Value) {
    || (file.Map? && Find(file.entries, "url") == Some(x))
    || (file.Obj? && Find(file.props, "url") == Some(x))
  }

  /**
   * The files list after `byFilesAdvanced`: the entry at the position
   * `array_search` finds in the url column is overwritten, otherwise the new
   * entry is appended.
   */
  function AddFile(files: seq<Value>, url: string, entry: Value): (r: seq<Value>)
    ensures FirstIndex(UrlColumn(files), Str(url)).None? ==> r == files + [entry]
    ensures FirstIndex(UrlColumn(files), Str(url)).Some? ==>
      var k := FirstIndex(UrlColumn(files), Str(url)).value; k < |files| && r == files[k := entry]
  {
    match FirstIndex(UrlColumn(files), Str(url))
    case None => files + [entry]
    case Some(k) => files[k := entry]
  }

  /** When every entry carries a url, the column lines up with the list and the upsert hits the entry with that url. */
  lemma {:induction false} ColumnOfUrlEntries(files: seq<Value>)
    requires forall i :: 0 <= i < |files| ==> files[i].Map? && Find(files[i].entries, "url").Some?
    ensures |UrlColumn(files)| == |files|
    ensures forall i :: 0 <= i < |files| ==> UrlColumn(files)[i] == Find(files[i].entries, "url").value
  {
    if files != [] {
      ColumnOfUrlEntries(files[1..]);
    }
  }

  /**
   * After `byFiles([f])` with a plain string `f` and one advanced entry for
   * `u`, a second advanced entry for `u` overwrites the string at position 0,
   * not the entry for `u`, which stays: the list then names `u` twice.
   */
  lemma ColumnMisalignment(f: string, u: string, h1: seq<(string, Value)>, h2: seq<(string, Value)>)
    ensures var files := [Str(f), FileEntry(u, h1)];
      AddFile(files, u, FileEntry(u, h2)) == [FileEntry(u, h2), FileEntry(u, h1)]
  {
    var files := [Str(f), FileEntry(u, h1)];
    assert Find(FileEntry(u, h1).entries, "url") == Some(Str(u));
    assert UrlColumn(files[1..]) == [Str(u)] by {
      assert files[1..][1..] == [];
    }
    assert UrlColumn(files) == [Str(u)];
  }

  /** An object with a `url` property is in the column too: its position is overwritten. */
  lemma ObjectEntryOverwritten(u: string, entry: Value)
    ensures AddFile([Obj([("url", Str(u))])], u, entry) == [entry]
  {
    var files := [Obj([("url", Str(u))])];
    assert UrlOf(files[0]) == Some(Str(u));
    assert files[1..] == [];
    assert UrlColumn(files) == [Str(u)];
  }

  /** With only `{url, headers}` entries the upsert is by url: the first entry with that url is replaced. */
  lemma {:induction false} AddFileByUrl(files: seq<Value>, url: string, entry: Value, k: nat)
    requires forall i :: 0 <= i < |files| ==> files[i].Map? && Find(files[i].entries, "url").Some?
    requires k < |files| && Find(files[k].entries, "url") == Some(Str(url))
    requires forall j :: 0 <= j < k ==> Find(files[j].entries, "url") != Some(Str(url))
    ensures AddFile(files, url, entry) == files[k := entry]
  {
    ColumnOfUrlEntries(files);
    FirstIndexIs(UrlColumn(files), Str(url), k);
  }

  /** The country header is upper-cased: "de" is sent as "DE". */
  lemma CountryHeader()
    ensures FileHeaders(None, Some("de"), None) == [("CF-IPCountry", Str("DE"))]
  {
    assert Upper("de") == "DE" by {
      assert UpperChar('d') == 'D' && UpperChar('e') == 'E';
    }
  }

  /** The options after `byFilesAdvanced`: the other keys stay, `files` is extended or created at the end. */
  function AddFileOption(options: seq<(string, Value)>, url: string, entry: Value): (r: seq<(string, Value)>)
    ensures Keys(r) == if "files" in Keys(options) then Keys(options) else Keys(options) + ["files"]
    ensures forall k :: k != "files" ==> Find(r, k) == Find(options, k)
    ensures Find(options, "files").Some? && Find(options, "files").value.List? ==>
      Find(r, "files") == Some(List(AddFile(Find(options, "files").value.items, url, entry)))
    ensures !(Find(options, "files").Some? && Find(options, "files").value.List?) ==> Find(r, "files") == Some(List([entry]))
  {
    var current: Option<Value> := Find(options, "files");
    var files := if current.Some? && current.value.List? then List(AddFile(current.value.items, url, entry)) else List([entry]);
    UpsertKeys(options, "files", files);
    UpsertLookup(options, "files", files);
    forall k | k != "files"
      ensures Find(Upsert(options, "files", files), k) == Find(options, k)
    {
      UpsertFindOther(options, "files", files, k);
    }
    Upsert(options, "files", files)
  }

  class CachePurge {
    var options: seq<(string, Value)>

    constructor()
      ensures options == []
    {
      options := [];
    }

    method ByTags(tags: seq<string>)
      modifies this
      ensures options == [("tags", List(seq(|tags|, i requires 0 <= i < |tags| => Str(tags[i]))))]
    {
      options := [("tags", List(seq(|tags|, i requires 0 <= i < |tags| => Str(tags[i]))))];
    }

    method ByHosts(hosts: seq<string>)
      modifies this
      ensures options == [("hosts", List(seq(|hosts|, i requires 0 <= i < |hosts| => Str(hosts[i]))))]
    {
      options := [("hosts", List(seq(|hosts|, i requires 0 <= i < |hosts| => Str(hosts[i]))))];
    }

    method ByPrefixes(prefixes: seq<string>)
      modifies this
      ensures options == [("prefixes", List(seq(|prefixes|, i requires 0 <= i < |prefixes| => Str(prefixes[i]))))]
    {
      options := [("prefixes", List(seq(|prefixes|, i requires 0 <= i < |prefixes| => Str(prefixes[i]))))];
    }

    /** `byFiles`: any array of files, plain urls or `{url, headers}` entries. */
    method ByFiles(files: seq<Value>)
      modifies this
      ensures options == [("files", List(files))]
    {
      options := [("files", List(files))];
    }

    method Everything()
      modifies this
      ensures options == [("purge_everything", Bool(true))]
    {
      options := [("purge_everything", Bool(true))];
    }

    method ByFilesAdvanced(url: string, device: Option<string> := None, country: Option<string> := None, language: Option<string> := None)
      modifies this
      ensures options == AddFileOption(old(options), url, FileEntry(url, FileHeaders(device, country, language)))
    {
      var headers := [];
      if device.Some? {
        headers := headers + [("CF-Device-Type", Str(device.value))];
      }
      if country.Some? {
        headers := headers + [("CF-IPCountry", Str(Upper(country.value)))];
      }
      if language.Some? {
        headers := headers + [("accept-language", Str(language.value))];
      }
      var entry := FileEntry(url, headers);
      var filesIndex := FindIndex(options, "files");
      match filesIndex {
        case Some(i) =>
          var current := options[i].1;
          if current.List? {
            options := options[i := ("files", List(AddFile(current.items, url, entry)))];
          } else {
            options := options[i := ("files", List([entry]))];
          }
        case None =>
          options := options + [("files", List([entry]))];
      }
    }

    function ToArray(): Value
      reads this
    {
      Map(options)
    }
  }
}
