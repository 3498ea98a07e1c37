/**
 * The IP literals the expression builder passes through unquoted. PHP's
 * `filter_var($v, FILTER_VALIDATE_IP)` is modelled as: an IPv4 address in
 * dotted-decimal form (four octets 0..255, no leading zeros), or an IPv6
 * address in one of the text forms of section 2.2 of RFC 4291 (eight groups
 * of one to four hex digits, at most one "::" standing for one or more zero
 * groups, and an optional dotted-quad tail counting as two groups).
 */
module Ip {
  import opened Php
  import opened Text

  /** One dotted-decimal octet: 1-3 digits, no leading zero, at most 255. */
  predicate IsOctet(p: string) {
    && 1 <= |p| <= 3
    && (forall i :: 0 <= i < |p| ==> IsDigit(p[i]))
    && (p[0] != '0' || |p| == 1)
    && DigitsValue(p) <= 255
  }

  predicate IsIPv4(s: string) {
    var parts := Split(s, '.');
    |parts| == 4 && forall i :: 0 <= i < 4 ==> IsOctet(parts[i])
  }

  predicate IsHexDigit(ch: char) {
    IsDigit(ch) || 'a' <= ch <= 'f' || 'A' <= ch <= 'F'
  }

  predicate IsHexGroup(p: string) {
    1 <= |p| <= 4 && forall i :: 0 <= i < |p| ==> IsHexDigit(p[i])
  }

  /** The colon-separated groups of a run of an IPv6 address; an empty run has none. */
  function Groups(s: string): seq<string> {
    if s == "" then [] else Split(s, ':')
  }

  /**
   * How many 16-bit pieces the groups denote: a hex group counts one, a
   * dotted-quad last group (when `tail` allows it) counts two. `None` when a
   * group is malformed.
   */
  function Pieces(groups: seq<string>, tail: bool): (r: Option<nat>)
    ensures r.Some? ==> forall i :: 0 <= i < |groups| - 1 ==> IsHexGroup(groups[i])
    ensures r.Some? && groups != [] ==> r.value == |groups| || (tail && r.value == |groups| + 1 && IsIPv4(groups[|groups| - 1]))
  {
    if groups == [] then Some(0)
    else if !(forall i :: 0 <= i < |groups| - 1 ==> IsHexGroup(groups[i])) then None
    else
      var last := groups[|groups| - 1];
      if IsHexGroup(last) then Some(|groups|)
      else if tail && IsIPv4(last) then Some(|groups| + 1)
      else None
  }

  /** The position of the first "::" in `s`, if any. */
  function DoubleColon(s: string): (r: Option<nat>)
    ensures r.Some? ==> r.value + 1 < |s| && s[r.value] == ':' && s[r.value + 1] == ':'
    ensures r.None? ==> forall i :: 0 <= i < |s| - 1 ==> !(s[i] == ':' && s[i + 1] == ':')
  {
    if |s| < 2 then None
    else if s[0] == ':' && s[1] == ':' then Some(0)
    else match DoubleColon(s[1..])
      case None => None
      case Some(i) => Some(i + 1)
  }

  predicate IsIPv6(s: string) {
    match DoubleColon(s)
    case None => Pieces(Groups(s), true) == Some(8)
    case Some(i) =>
      var left := Pieces(Groups(s[..i]), false);
      var right := Pieces(Groups(s[i + 2..]), true);
      left.Some? && right.Some? && left.value + right.value <= 7
  }

  /** What `filter_var($v, FILTER_VALIDATE_IP)` accepts. */
  predicate IsIpLiteral(s: string) {
    IsIPv4(s) || IsIPv6(s)
  }

  /** Four octets joined by dots form an IPv4 literal. */
  lemma DottedQuad(a: string, b: string, c: string, d: string)
    requires IsOctet(a) && IsOctet(b) && IsOctet(c) && IsOctet(d)
    ensures IsIpLiteral(a + "." + (b + "." + (c + "." + d)))
  {
    Octets(a, b, c, d);
  }

  /** "255" is the largest octet; "256" and a padded "01" are rejected. */
  lemma OctetBounds()
    ensures IsOctet("255") && IsOctet("0")
    ensures !IsOctet("256") && !IsOctet("01")
  {
    assert DigitsValue("255") == 255 by {
      assert "255"[..2] == "25";
      assert "25"[..1] == "2";
    }
    assert DigitsValue("256") == 256 by {
      assert "256"[..2] == "25";
      assert "25"[..1] == "2";
    }
  }

  /** The IPv6 loopback address "::1" is a literal. */
  lemma LoopbackV6()
    ensures IsIPv6("::1")
  {
    assert DoubleColon("::1") == Some(0);
    assert Groups("::1"[2..]) == ["1"] by {
      assert "::1"[2..] == "1";
      SplitWithout("1", ':');
    }
  }

  /** Only a string with a colon can be an IPv6 literal. */
  lemma WithoutColon(s: string)
    requires ':' !in s
    ensures !IsIPv6(s)
  {
    assert DoubleColon(s).None?;
    SplitWithout(s, ':');
  }

  /** A word with neither dots nor colons (a host label, a keyword) is not a literal. */
  lemma PlainWord(s: string)
    requires '.' !in s && ':' !in s
    ensures !IsIpLiteral(s)
  {
    SplitWithout(s, '.');
    WithoutColon(s);
  }

  lemma Octets(a: string, b: string, c: string, d: string)
    requires '.' !in a && '.' !in b && '.' !in c && '.' !in d
    ensures Split(a + "." + (b + "." + (c + "." + d)), '.') == [a, b, c, d]
  {
    SplitWithout(d, '.');
    SplitAt(c, d, '.');
    SplitAt(b, c + "." + d, '.');
    SplitAt(a, b + "." + (c + "." + d), '.');
  }
}
