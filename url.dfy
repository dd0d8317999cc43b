/**
 * The part of the browser's URL handling that the share link relies on:
 * `location.search` of an address and `URLSearchParams.get` on it.
 * Percent-decoding and '+' as space are not modelled.
 */
module Url {
  import opened Wrappers

  /** The longest prefix of `s` without `c`. */
  function UpTo(s: string, c: char): (r: string)
    ensures |r| <= |s| && r == s[..|r|]
    ensures c !in r
    ensures c in s <==> |r| < |s|
    ensures |r| < |s| ==> s[|r|] == c
    decreases |s|
  {
    if s == [] then []
    else if s[0] == c then []
    else
      var rest := UpTo(s[1..], c);
      assert s == [s[0]] + s[1..];
      [s[0]] + rest
  }

  /** What follows the first `c` of `s`. */
  function After(s: string, c: char): (r: string)
    requires c in s
    ensures s == UpTo(s, c) + [c] + r
  {
    var k := |UpTo(s, c)|;
    assert s == s[..k] + [s[k]] + s[k + 1..];
    s[k + 1..]
  }

  /** Splitting at the first `c` of `a + [c] + b`, when `a` has none, gives back `a` and `b`. */
  lemma SplitAtFirst(a: string, c: char, b: string)
    requires c !in a
    ensures UpTo(a + [c] + b, c) == a
    ensures After(a + [c] + b, c) == b
  {
    var s := a + [c] + b;
    assert forall i :: 0 <= i < |a| ==> s[i] == a[i];
    assert s[|a|] == c;
    assert s[..|a|] == a;
  }

  /** A string without `c` is its own longest `c`-free prefix. */
  lemma UpToAbsent(s: string, c: char)
    requires c !in s
    ensures UpTo(s, c) == s
  {
  }

  /**
   * `location.search` without its '?': what lies between the first '?' and
   * the fragment ('#'), or nothing when the address has no query.
   */
  function QueryOf(url: string): (q: string)
    ensures '#' !in q
  {
    var beforeHash := UpTo(url, '#');
    if '?' in beforeHash then After(beforeHash, '?') else ""
  }

  /** `s.split(sep)`: the pieces between the separators, in order. */
  function Fields(s: string, sep: char): (r: seq<string>)
    ensures |r| >= 1
    ensures forall i :: 0 <= i < |r| ==> sep !in r[i]
    ensures sep !in s ==> r == [s]
    decreases |s|
  {
    if sep in s then [UpTo(s, sep)] + Fields(After(s, sep), sep) else [s]
  }

  /** `parts.join(sep)`: the inverse of `Fields`. */
  function Join(parts: seq<string>, sep: char): string
    requires |parts| >= 1
    decreases |parts|
  {
    if |parts| == 1 then parts[0] else parts[0] + [sep] + Join(parts[1..], sep)
  }

  /** Joining the pieces of a split with its separator gives back the string. */
  lemma {:induction false} JoinFields(s: string, sep: char)
    ensures Join(Fields(s, sep), sep) == s
    decreases |s|
  {
    if sep in s {
      var rest := After(s, sep);
      JoinFields(rest, sep);
      assert Fields(s, sep)[1..] == Fields(rest, sep);
    }
  }

  /** Splitting `a + [sep] + rest`, when `a` has no `sep`, gives `a` and then the fields of `rest`. */
  lemma FieldsOfSeparated(a: string, sep: char, rest: string)
    requires sep !in a
    ensures Fields(a + [sep] + rest, sep) == [a] + Fields(rest, sep)
  {
    var s := a + [sep] + rest;
    SplitAtFirst(a, sep, rest);
    assert s[|a|] == sep;
  }

  /** Splitting a join of separator-free pieces gives back the pieces. */
  lemma {:induction false} FieldsJoin(parts: seq<string>, sep: char)
    requires |parts| >= 1
    requires forall i :: 0 <= i < |parts| ==> sep !in parts[i]
    ensures Fields(Join(parts, sep), sep) == parts
    decreases |parts|
  {
    if |parts| == 1 {
      UpToAbsent(parts[0], sep);
    } else {
      var tail := parts[1..];
      assert forall i :: 0 <= i < |tail| ==> tail[i] == parts[i + 1];
      FieldsJoin(tail, sep);
      FieldsOfSeparated(parts[0], sep, Join(tail, sep));
      assert parts == [parts[0]] + tail;
    }
  }

  /** The name of a `name=value` pair: all of it when it has no '='. */
  function PairName(pair: string): string {
    UpTo(pair, '=')
  }

  /** The value of a `name=value` pair: empty when it has no '='. */
  function PairValue(pair: string): string {
    if '=' in pair then After(pair, '=') else ""
  }

  /** The index of the first pair from `k` on whose name is `key`, or `|pairs|` when none is. */
  function FirstPairFrom(pairs: seq<string>, key: string, k: nat): (i: nat)
    requires k <= |pairs|
    ensures k <= i <= |pairs|
    ensures i < |pairs| ==> PairName(pairs[i]) == key
    ensures forall j :: k <= j < i ==> PairName(pairs[j]) != key
    decreases |pairs| - k
  {
    if k == |pairs| || PairName(pairs[k]) == key then k else FirstPairFrom(pairs, key, k + 1)
  }

  /** The value of the first `name=value` pair whose name is `key`. */
  function FirstValue(pairs: seq<string>, key: string): (r: Option<string>)
    ensures r.None? <==> forall i :: 0 <= i < |pairs| ==> PairName(pairs[i]) != key
    ensures r.Some? ==> exists i :: 0 <= i < |pairs| && PairName(pairs[i]) == key && r.value == PairValue(pairs[i])
                                && forall j :: 0 <= j < i ==> PairName(pairs[j]) != key
  {
    var i := FirstPairFrom(pairs, key, 0);
    if i < |pairs| then Some(PairValue(pairs[i])) else None
  }

  /** `new URLSearchParams(search).get(key)`, without percent-decoding. */
  function ParamGet(query: string, key: string): Option<string> {
    FirstValue(Fields(query, '&'), key)
  }

  /** The query of `base + "?" + query` is `query`, when only the query may hold a '?'. */
  lemma QueryOfJoined(base: string, query: string)
    requires '?' !in base && '#' !in base && '#' !in query
    ensures QueryOf(base + ['?'] + query) == query
  {
    var url := base + ['?'] + query;
    assert '#' !in url;
    UpToAbsent(url, '#');
    SplitAtFirst(base, '?', query);
  }

  /** A lone `key=value` pair yields `value` for `key`. */
  lemma ParamGetSinglePair(key: string, value: string)
    requires '=' !in key && '&' !in key && '&' !in value
    ensures ParamGet(key + ['='] + value, key) == Some(value)
  {
    var pair := key + ['='] + value;
    assert '&' !in pair;
    SplitAtFirst(key, '=', value);
  }

  /**
   * An address built as `base + "?" + key + "=" + value` yields `value` for
   * `key`, when the base has no '?' or '#', the key no '=', '&' or '#', and
   * the value no '&' or '#'.
   */
  lemma QueryRoundTrip(base: string, key: string, value: string)
    requires '?' !in base && '#' !in base
    requires '=' !in key && '&' !in key && '#' !in key
    requires '&' !in value && '#' !in value
    ensures ParamGet(QueryOf(base + ['?'] + key + ['='] + value), key) == Some(value)
  {
    var pair := key + ['='] + value;
    assert base + ['?'] + key + ['='] + value == base + ['?'] + pair;
    QueryOfJoined(base, pair);
    ParamGetSinglePair(key, value);
  }
}
