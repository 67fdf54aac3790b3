/** The tab-completion filter of the /salary command: keeps the suggestions
    that start with the typed token, ignoring case; no token, or an empty
    one, keeps everything. */
module Completion {

  import opened Wrappers
  import opened Text

  predicate StartsWith(s: string, p: string) {
    |p| <= |s| && s[..|p|] == p
  }

  /** Whether a suggestion matches a typed token, ignoring case. */
  predicate Matches(s: string, t: string) {
    StartsWith(Lower(s), Lower(t))
  }

  /** The suggestions of base that match t, in their original order. */
  function Matching(base: seq<string>, t: string): (r: seq<string>)
    ensures |r| <= |base|
    ensures forall x :: x in r ==> x in base && Matches(x, t)
  {
    if base == [] then []
    else (if Matches(base[0], t) then [base[0]] else []) + Matching(base[1..], t)
  }

  function Filter(base: seq<string>, token: Option<string>): seq<string>
  {
    match token
    case None => base
    case Some(t) => if t == [] then base else Matching(base, t)
  }

  /** A suggestion survives a non-empty token exactly when it is one of the
      suggestions and starts with the token, ignoring case. */
  lemma {:induction false} FilterMembership(base: seq<string>, t: string, x: string)
    requires t != []
    ensures x in Filter(base, Some(t)) <==> x in base && Matches(x, t)
  {
    if base != [] && x in base && Matches(x, t) && x != base[0] {
      assert x in base[1..];
      FilterMembership(base[1..], t, x);
    }
  }

  /** Filtering distributes over concatenation, so it keeps the order of the
      suggestions. */
  lemma {:induction false} FilterAppend(a: seq<string>, b: seq<string>, token: Option<string>)
    ensures Filter(a + b, token) == Filter(a, token) + Filter(b, token)
  {
    if token.Some? && token.value != [] && a != [] {
      assert (a + b)[0] == a[0];
      assert (a + b)[1..] == a[1..] + b;
      FilterAppend(a[1..], b, token);
    } else if a == [] {
      assert a + b == b;
    }
  }

  /** Tokens that differ only in case select the same suggestions. */
  lemma {:induction false} FilterCaseInsensitive(base: seq<string>, t1: string, t2: string)
    requires Lower(t1) == Lower(t2)
    ensures Filter(base, Some(t1)) == Filter(base, Some(t2))
  {
    if base != [] && t1 != [] {
      FilterCaseInsensitive(base[1..], t1, t2);
    }
  }

  /** Filtering twice with the same token is filtering once. */
  lemma {:induction false} FilterIdempotent(base: seq<string>, token: Option<string>)
    ensures Filter(Filter(base, token), token) == Filter(base, token)
  {
    if token.Some? && token.value != [] && base != [] {
      var t := token.value;
      FilterIdempotent(base[1..], token);
      if Matches(base[0], t) {
        var r := Matching(base, t);
        assert r == [base[0]] + Matching(base[1..], t);
        assert r[0] == base[0] && r[1..] == Matching(base[1..], t);
        assert Matching(r, t) == [r[0]] + Matching(r[1..], t);
      } else {
        assert Matching(base, t) == Matching(base[1..], t);
      }
    }
  }
}
