/**
  Turning a class name into the name of its collection.

  `Underscore` lower-cases a CamelCase name and puts `_` before each interior
  capital; `Pluralize` appends `s`. The inverses `Camelize` and `Singularize`
  are the partners the round-trip lemmas below are stated against: on a
  CamelCase class name the derivation loses nothing.
 */
module Inflection {

  predicate IsUpper(c: char) {
    'A' <= c <= 'Z'
  }

  predicate IsLower(c: char) {
    'a' <= c <= 'z'
  }

  function ToLower(c: char): (r: char)
    ensures !IsUpper(r)
    ensures IsUpper(c) ==> IsLower(r)
    ensures !IsUpper(c) ==> r == c
  {
    if IsUpper(c) then (c as int + 32) as char else c
  }

  function ToUpper(c: char): (r: char)
    ensures IsLower(c) ==> IsUpper(r) && ToLower(r) == c
    ensures !IsLower(c) ==> r == c
  {
    if IsLower(c) then (c as int - 32) as char else c
  }

  lemma UpperLowerInverse(c: char)
    requires IsUpper(c)
    ensures ToUpper(ToLower(c)) == c
  {
  }

  /** No character of `s` is an upper-case letter. */
  predicate NoUpper(s: string) {
    forall i :: 0 <= i < |s| ==> !IsUpper(s[i])
  }

  predicate NoUnderscore(s: string) {
    forall i :: 0 <= i < |s| ==> s[i] != '_'
  }

  /** A CamelCase class name: starts with a capital and contains no `_`. */
  predicate IsCamelName(s: string) {
    |s| > 0 && IsUpper(s[0]) && NoUnderscore(s)
  }

  /** The interior of a name: each capital becomes `_` and its lower-case letter. */
  function SplitWords(s: string): (r: string)
    ensures NoUpper(r)
    ensures |r| >= |s|
    decreases |s|
  {
    if |s| == 0 then ""
    else (if IsUpper(s[0]) then ['_', ToLower(s[0])] else [s[0]]) + SplitWords(s[1..])
  }

  /** `SplitWords` works character by character, so it distributes over concatenation. */
  lemma {:induction false} SplitWordsAppend(a: string, b: string)
    ensures SplitWords(a + b) == SplitWords(a) + SplitWords(b)
    decreases |a|
  {
    if |a| == 0 {
      assert a + b == b;
    } else {
      assert (a + b)[0] == a[0] && (a + b)[1..] == a[1..] + b;
      SplitWordsAppend(a[1..], b);
    }
  }

  /** A run without capitals is left as it is. */
  lemma {:induction false} SplitWordsNoUpper(s: string)
    requires NoUpper(s)
    ensures SplitWords(s) == s
    decreases |s|
  {
    if |s| > 0 {
      SplitWordsNoUpper(s[1..]);
    }
  }

  /** A one-character interior: a capital becomes `_` and its lower-case letter. */
  lemma SplitWordsCapital(d: char)
    requires IsUpper(d)
    ensures SplitWords([d]) == ['_', ToLower(d)]
  {
    assert [d][1..] == "";
  }

  /** A two-word CamelCase name underscores to its two lower-cased words joined by `_`. */
  lemma {:induction false} UnderscoreTwoWords(c: char, a: string, d: char, b: string)
    requires IsUpper(d) && NoUpper(a) && NoUpper(b)
    ensures Underscore([c] + a + [d] + b) == [ToLower(c)] + a + ['_', ToLower(d)] + b
  {
    var name := [c] + a + [d] + b;
    assert name[0] == c && name[1..] == a + ([d] + b);
    SplitWordsAppend(a, [d] + b);
    SplitWordsAppend([d], b);
    SplitWordsNoUpper(a);
    SplitWordsNoUpper(b);
    SplitWordsCapital(d);
  }

  /** `BottledUniverse` becomes `bottled_universe`. */
  function Underscore(name: string): (r: string)
    ensures NoUpper(r)
    ensures |name| > 0 <==> |r| > 0
  {
    if |name| == 0 then "" else [ToLower(name[0])] + SplitWords(name[1..])
  }

  /** The inverse of `SplitWords`: each `_` is dropped and the letter after it capitalised. */
  function JoinWords(u: string): string
    decreases |u|
  {
    if |u| == 0 then ""
    else if u[0] == '_' && |u| >= 2 then [ToUpper(u[1])] + JoinWords(u[2..])
    else [u[0]] + JoinWords(u[1..])
  }

  /** `bottled_universe` becomes `BottledUniverse`. */
  function Camelize(u: string): string {
    if |u| == 0 then "" else [ToUpper(u[0])] + JoinWords(u[1..])
  }

  lemma {:induction false} JoinSplit(s: string)
    requires NoUnderscore(s)
    ensures JoinWords(SplitWords(s)) == s
    decreases |s|
  {
    if |s| > 0 {
      var rest := SplitWords(s[1..]);
      JoinSplit(s[1..]);
      if IsUpper(s[0]) {
        var u := ['_', ToLower(s[0])] + rest;
        assert u[2..] == rest;
        UpperLowerInverse(s[0]);
      } else {
        var u := [s[0]] + rest;
        assert u[1..] == rest;
      }
    }
  }

  /** Underscoring a CamelCase name loses nothing: camelising gives it back. */
  lemma {:induction false} CamelizeUnderscore(name: string)
    requires IsCamelName(name)
    ensures Camelize(Underscore(name)) == name
  {
    var u := Underscore(name);
    assert u[1..] == SplitWords(name[1..]);
    JoinSplit(name[1..]);
    UpperLowerInverse(name[0]);
  }

  /** English plural by the plain suffix rule. */
  function Pluralize(word: string): (r: string)
    ensures |r| == |word| + 1 && r[|word|] == 's'
    ensures r[..|word|] == word
  {
    word + "s"
  }

  /** Drops one trailing `s`, if there is one. */
  function Singularize(word: string): string {
    if |word| > 0 && word[|word| - 1] == 's' then word[..|word| - 1] else word
  }

  lemma SingularizePluralize(word: string)
    ensures Singularize(Pluralize(word)) == word
  {
  }

  /** The collection path of a resource named `name`: `/glasswares` for `Glassware`. */
  function PathOf(name: string): (path: string)
    ensures |path| >= 2 && path[0] == '/' && path[|path| - 1] == 's'
    ensures NoUpper(path)
  {
    "/" + Pluralize(Underscore(name))
  }

  /** The resource name a collection path was derived from, for CamelCase names. */
  function NameOfPath(path: string): string {
    if |path| > 0 && path[0] == '/' then Camelize(Singularize(path[1..])) else Camelize(Singularize(path))
  }

  /** The path derivation is injective on CamelCase names: the name is recoverable from it. */
  lemma {:induction false} NameOfPathOf(name: string)
    requires IsCamelName(name)
    ensures NameOfPath(PathOf(name)) == name
  {
    var path := PathOf(name);
    assert path[1..] == Pluralize(Underscore(name));
    SingularizePluralize(Underscore(name));
    CamelizeUnderscore(name);
  }

  lemma PathOfInjective(a: string, b: string)
    requires IsCamelName(a) && IsCamelName(b) && a != b
    ensures PathOf(a) != PathOf(b)
  {
    NameOfPathOf(a);
    NameOfPathOf(b);
  }
}
