/** An optional value: a request field that may be absent, or a lookup that may miss. */
module Optional {
  datatype Option<+T> = None | Some(value: T)
}

/** The outcomes a handler can answer with, besides the generic failure that is not modelled. */
module Http {
  datatype Status = Ok200 | Created201 | BadRequest400 | NotFound404
}

/**
 * JavaScript truthiness of the request fields the handlers test with `!x` and `x || y`.
 * `None` stands for a field that is absent or null.
 */
module JsValues {
  import opened Optional

  /** `!!s` for a string field: absent, null and the empty string are falsy. */
  predicate Truthy(s: Option<string>) {
    s.Some? && s.value != ""
  }

  /** `!!n` for a number field: absent, null and 0 are falsy. */
  predicate TruthyNum(n: Option<int>) {
    n.Some? && n.value != 0
  }

  /** `s || fallback` for a string field. */
  function OrElse(s: Option<string>, fallback: string): string {
    if Truthy(s) then s.value else fallback
  }

  /** `s || null` for a string field: a falsy value is stored as null. */
  function OrNull(s: Option<string>): Option<string> {
    if Truthy(s) then s else None
  }
}

/** Sequences whose entries are pairwise distinct, and what that says about their counts. */
module Distinct {
  predicate NoDuplicates<T(==)>(s: seq<T>) {
    forall i, j :: 0 <= i < j < |s| ==> s[i] != s[j]
  }

  lemma {:induction false} NoDuplicatesCount<T>(s: seq<T>, v: T)
    requires NoDuplicates(s)
    ensures multiset(s)[v] <= 1
  {
    if s != [] {
      NoDuplicatesCount(s[1..], v);
      assert s == [s[0]] + s[1..];
      if s[0] == v {
        assert v !in s[1..];
      }
    }
  }

  lemma CountTwo<T>(s: seq<T>, i: nat, j: nat)
    requires i < j < |s| && s[i] == s[j]
    ensures multiset(s)[s[i]] >= 2
  {
    assert s == s[..j] + s[j..];
    assert s[i] in s[..j] && s[j] == s[j..][0];
  }
}
