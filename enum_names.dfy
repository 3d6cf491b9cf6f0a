/** Matching a string against the declared member names of an enum, as
    `Enum.TryParse(value, ignoreCase, out e)` and `Enum.Parse` do for names. */
module EnumNames {
  import opened Wrappers

  /** Upper-case of an ASCII letter; every other character is left alone. */
  function UpperAscii(c: char): char {
    if 'a' <= c <= 'z' then (c as int - 32) as char else c
  }

  /** The case-folded form of a string. */
  function Fold(s: string): (u: string)
    ensures |u| == |s|
  {
    seq(|s|, i requires 0 <= i < |s| => UpperAscii(s[i]))
  }

  predicate SameIgnoringCase(a: string, b: string) { Fold(a) == Fold(b) }

  predicate NameMatches(name: string, value: string, ignoreCase: bool) {
    if ignoreCase then SameIgnoringCase(name, value) else name == value
  }

  /** The first member, in declaration order, whose name matches `value`;
      none for a null value or when no name matches. */
  function TryParse<E>(members: seq<E>, name: E -> string, value: Option<string>, ignoreCase: bool): (r: Option<E>)
    ensures r.Some? <==> value.Some? && exists i :: 0 <= i < |members| && NameMatches(name(members[i]), value.value, ignoreCase)
    ensures r.Some? ==> r.value in members && NameMatches(name(r.value), value.value, ignoreCase)
    decreases |members|
  {
    if value.None? || members == [] then None
    else if NameMatches(name(members[0]), value.value, ignoreCase) then Some(members[0])
    else
      var r := TryParse(members[1..], name, value, ignoreCase);
      assert forall i :: 1 <= i < |members| ==> members[i] == members[1..][i - 1];
      r
  }

  /** No two members' names match each other, so at most one member matches any value. */
  predicate Unambiguous<E(==)>(members: seq<E>, name: E -> string, ignoreCase: bool) {
    forall a, b :: a in members && b in members && NameMatches(name(a), name(b), ignoreCase) ==> a == b
  }

  /** With unambiguous names, a value matching a member's name parses to that member. */
  lemma TryParseFinds<E>(members: seq<E>, name: E -> string, m: E, value: string, ignoreCase: bool)
    requires Unambiguous(members, name, ignoreCase)
    requires m in members && NameMatches(name(m), value, ignoreCase)
    ensures TryParse(members, name, Some(value), ignoreCase) == Some(m)
  {
    var i :| 0 <= i < |members| && members[i] == m;
    var r := TryParse(members, name, Some(value), ignoreCase);
    assert r.Some?;
    assert NameMatches(name(r.value), name(m), ignoreCase);
  }

  /** `Enum.TryParse(value, ignoreCase, out e) ? e : fallback`. */
  function ParseOrFallback<E>(members: seq<E>, name: E -> string, value: Option<string>, ignoreCase: bool, fallback: E): (r: E)
    ensures r == fallback || (value.Some? && NameMatches(name(r), value.value, ignoreCase))
  {
    match TryParse(members, name, value, ignoreCase)
    case Some(e) => e
    case None => fallback
  }

  /** Over a complete list of unambiguous members, the result is the member
      whose name matches, and the fallback exactly when none matches. */
  lemma ParseOrFallbackIs<E>(members: seq<E>, name: E -> string, value: Option<string>, ignoreCase: bool, fallback: E, e: E)
    requires forall m :: m in members
    requires Unambiguous(members, name, ignoreCase)
    ensures ParseOrFallback(members, name, value, ignoreCase, fallback) == e
      <==> ((value.Some? && NameMatches(name(e), value.value, ignoreCase))
            || (e == fallback && forall m :: !(value.Some? && NameMatches(name(m), value.value, ignoreCase))))
  {
    var r := TryParse(members, name, value, ignoreCase);
    if value.Some? && NameMatches(name(e), value.value, ignoreCase) {
      TryParseFinds(members, name, e, value.value, ignoreCase);
    } else if r.Some? {
      assert NameMatches(name(r.value), value.value, ignoreCase);
    } else if value.Some? {
      forall m ensures !NameMatches(name(m), value.value, ignoreCase) {
        assert m in members;
        var i :| 0 <= i < |members| && members[i] == m;
      }
    }
  }
}
