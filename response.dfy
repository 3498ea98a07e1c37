/**
 * An API response: its status code, the success test on it, and lookups
 * into the decoded JSON document by a dotted key, with the decoded document
 * cached on first use.
 */
module Responses {
  import opened Php
  import opened Text
  import opened Keyed

  /**
   * The integer key a string segment denotes in a PHP list: PHP turns a
   * canonical decimal string ("0", "7", not "07" or "+7") into an integer
   * key; any other string can never be a key of a list.
   */
  function ListIndex(segment: string): (r: Option<nat>)
    ensures r.Some? ==> segment == NatToString(r.value)
  {
    if segment != [] && (forall i :: 0 <= i < |segment| ==> IsDigit(segment[i])) && (segment[0] != '0' || segment == "0")
    then
      CanonicalDigits(segment);
      Some(DigitsValue(segment))
    else None
  }

  /** A digit string without a leading zero is the decimal form of its value. */
  lemma {:induction false} CanonicalDigits(s: string)
    requires s != [] && forall i :: 0 <= i < |s| ==> IsDigit(s[i])
    requires s[0] != '0' || s == "0"
    ensures NatToString(DigitsValue(s)) == s
  {
    var n := DigitsValue(s);
    var last := s[|s| - 1];
    if |s| == 1 {
      assert s[..|s| - 1] == [];
      assert DigitsValue(s[..|s| - 1]) == 0;
      assert n == DigitValue(last);
      assert NatToString(n) == [DigitChar(n)];
    } else {
      var init := s[..|s| - 1];
      CanonicalDigits(init);
      var m := DigitsValue(init);
      assert init[0] == s[0];
      assert m > 0;
      assert n == m * 10 + DigitValue(last);
      assert n / 10 == m && n % 10 == DigitValue(last);
      assert DigitChar(n % 10) == last;
      assert s == init + [last];
    }
  }

  /** Every decimal form of a number names that position of a list. */
  lemma ListIndexOf(n: nat)
    ensures ListIndex(NatToString(n)) == Some(n)
  {
    NatToStringValue(n);
  }

  /**
   * One step of the lookup: an array takes any present key, even one whose
   * value is null (`array_key_exists`); an object takes only a property that
   * is set and not null (`isset`); anything else has no members.
   */
  function Step(target: Value, segment: string): (r: Option<Value>)
    ensures target.Map? ==> r == Find(target.entries, segment)
    ensures target.Obj? ==> (r.Some? <==> Find(target.props, segment).Some? && Find(target.props, segment).value != Null)
    ensures target.Obj? && r.Some? ==> r == Find(target.props, segment)
    ensures target.List? ==> (r.Some? <==> ListIndex(segment).Some? && ListIndex(segment).value < |target.items|)
    ensures target.List? && r.Some? ==> r.value == target.items[ListIndex(segment).value]
    ensures !(target.List? || target.Map? || target.Obj?) ==> r.None?
  {
    match target
    case List(items) =>
      var k := ListIndex(segment);
      if k.Some? && k.value < |items| then Some(items[k.value]) else None
    case Map(entries) => Find(entries, segment)
    case Obj(props) =>
      var v := Find(props, segment);
      if v.Some? && v.value != Null then v else None
    case _ => None
  }

  /** The value at the end of a path of segments, or nothing as soon as one step fails. */
  function Walk(target: Value, segments: seq<string>): Option<Value> {
    if segments == [] then Some(target)
    else
      match Step(target, segments[0])
      case None => None
      case Some(next) => Walk(next, segments[1..])
  }

  /** Walking a path in two parts is walking the first part, then the second from where it ends. */
  lemma {:induction false} WalkAppend(target: Value, a: seq<string>, b: seq<string>)
    ensures Walk(target, a + b) == if Walk(target, a).Some? then Walk(Walk(target, a).value, b) else None
  {
    if a == [] {
      assert a + b == b;
    } else {
      assert (a + b)[0] == a[0] && (a + b)[1..] == a[1..] + b;
      match Step(target, a[0])
      case None =>
      case Some(next) => WalkAppend(next, a[1..], b);
    }
  }

  /** A dotted key looks up its first segment, then the rest of the key in what it found. */
  lemma {:induction false} DottedKey(target: Value, first: string, rest: string, default: Value)
    requires '.' !in first
    ensures Walk(target, Split(first + "." + rest, '.')).GetOr(default)
      == match Step(target, first)
         case None => default
         case Some(next) => Walk(next, Split(rest, '.')).GetOr(default)
  {
    SplitAt(first, rest, '.');
    assert first + "." + rest == first + ['.'] + rest;
    var segments := [first] + Split(rest, '.');
    assert segments[0] == first && segments[1..] == Split(rest, '.');
  }

  /** A present null is returned from an array, but the default from an object. */
  lemma NullMember(key: string, default: Value)
    requires '.' !in key
    ensures Walk(Map([(key, Null)]), Split(key, '.')).GetOr(default) == Null
    ensures Walk(Obj([(key, Null)]), Split(key, '.')).GetOr(default) == default
  {
    SplitWithout(key, '.');
  }

  class Response {
    /** `(int) getStatusCode()` of the underlying response. */
    const statusCode: int
    /** What `json_decode` gives for the body; decoding itself is not modelled. */
    const document: Value
    /** The cached decoded document; null until the first `json` call. */
    var decoded: Value

    /** The cache is empty or holds the document. */
    ghost predicate Valid()
      reads this
    {
      decoded == Null || decoded == document
    }

    constructor(statusCode: int, document: Value)
      ensures this.statusCode == statusCode && this.document == document && decoded == Null
      ensures Valid()
    {
      this.statusCode := statusCode;
      this.document := document;
      decoded := Null;
    }

    /** `successful()`: exactly status 200; 201 and 204 are not successes. */
    predicate Successful()
      ensures Successful() <==> statusCode == 200
    {
      statusCode == 200
    }

    /** `failed()`: always the negation of `successful()`. */
    predicate Failed()
      ensures Failed() <==> statusCode != 200
    {
      !Successful()
    }

    /**
     * `get(target, key, default)`: splits the key on "." and descends one
     * segment at a time; the default as soon as a segment is missing. The
     * source's null and float segment branches are not modelled: `explode`
     * only ever yields strings.
     */
    method Get(target: Value, key: string, default: Value) returns (r: Value)
      ensures r == Walk(target, Split(key, '.')).GetOr(default)
    {
      var segments := Split(key, '.');
      var current := target;
      var i := 0;
      while i < |segments|
        invariant 0 <= i <= |segments|
        invariant Walk(target, segments) == Walk(current, segments[i..])
      {
        var next := Step(current, segments[i]);
        if next.None? {
          return default;
        }
        assert segments[i..][1..] == segments[i + 1..];
        current := next.value;
        i := i + 1;
      }
      return current;
    }

    /**
     * `json(key, default)`: decodes the body when nothing truthy is cached,
     * then returns the whole document, or the lookup of the key in it.
     */
    method Json(key: Option<string> := None, default: Value := Null) returns (r: Value)
      requires Valid()
      modifies this
      ensures Valid()
      ensures decoded == if Empty(old(decoded)) then document else old(decoded)
      ensures key.None? ==> r == document
      ensures key.Some? ==> r == Walk(document, Split(key.value, '.')).GetOr(default)
    {
      if Empty(decoded) {
        decoded := document;
      }
      if key.None? {
        return decoded;
      }
      r := Get(decoded, key.value, default);
    }
  }

  /** A created or empty response counts as failed. */
  lemma CreatedIsFailed(response: Response)
    requires response.statusCode == 201 || response.statusCode == 204
    ensures response.Failed() && !response.Successful()
  {
  }
}
